/** Undo interrupted by crashes and started again, and again. */
module Resumption {
  import opened Mailbox
  import opened Audit
  import opened Events
  import opened Uids
  import opened WriteAhead
  import opened Soundness
  import opened UndoPlan
  import opened Undo
  import opened UndoPolicy
  import opened Entitlement
  import opened Recovery
  import opened Halfway

  /** One undo, on either path, however far it got: what it chose in Trash and
      what it did; and if it completed, the moves that amounts to. */
  ghost predicate Effort(r: Run, w: World, x: Site, chosen: map<Loc, Folder>, es: History, moves: History, complete: bool) {
    && (complete || chosen != map[] ==> Chooses(r, w, x, chosen)) && Within(es, chosen) && LegalRun(w, es)
    && (complete ==> Attempt(r, w, x, chosen, moves, true) && Replay(w, moves).server == Replay(w, es).server)
  }

  /** What Undo.Run does is an effort, on any server and wherever it ends. */
  lemma UndoneIsEffort(hasMove: bool, r: Run, w: World, x: Site, logs: History, picks: seq<Pick>, complete: bool)
    returns (chosen: map<Loc, Folder>, moves: History)
    requires LogOk(r, w.log) && LegalRun(w, Told(logs, picks))
    requires Undone(hasMove, w, TermsAt(r, w, x), logs, picks, complete)
    ensures Effort(r, w, x, chosen, Told(logs, picks), moves, complete)
    ensures hasMove ==> moves == Told(logs, picks) && Attempt(r, w, x, chosen, moves, complete)
  {
    WantedFromTrash(r, w.log, ConfirmedBy(w.log, r.account));
    var d := TermsAt(r, w, x);
    if picks == [] {
      chosen, moves := map[], logs;
      LogsWithin(logs, chosen);
      if complete { NothingWanted(r, w, x); }
    } else {
      OnePart(r, d.wants, picks);
      var p := picks[0];
      assert picks == [p] && picks[..0] == [] && Told(logs, []) == logs;
      LogsOnlyKeeps(w, logs);
      assert PickOk(hasMove, Replay(w, logs), d, p, complete);
      chosen, moves := p.chosen, Append(logs, p.moves);
      LogsWithin(logs, chosen);
      WithinAppend(logs, p.es, chosen);
      if hasMove || complete { PartIsAttempt(hasMove, r, w, d, x, logs, p, complete); }
    }
  }

  /** Undo runs interrupted by crashes, in order, the last one outermost; each
      may find other source folders it cannot open. */
  datatype Tries =
    | Untried
    | Again(before: Tries, unchecked: set<Folder>, chosen: map<Loc, Folder>, es: History, moves: History, kept: nat)

  ghost function After(w: World, tries: Tries): World {
    match tries
    case Untried => w
    case Again(before, _, _, es, _, kept) =>
      var v := Replay(After(w, before), es);
      if kept <= |v.log| then Crash(v, kept) else v
  }

  ghost predicate Interrupted(r: Run, w: World, x: Site, tries: Tries) {
    match tries
    case Untried => true
    case Again(before, unchecked, chosen, es, moves, kept) =>
      var v := After(w, before);
      && Interrupted(r, w, x, before)
      && Effort(r, v, x.(unchecked := unchecked), chosen, es, moves, false)
      && Replay(v, es).synced <= kept <= |Replay(v, es).log|
  }

  /** The last of some undos completed. */
  ghost predicate Completed(r: Run, w: World, x: Site, last: Tries) {
    && Interrupted(r, w, x, last) && last.Again?
    && Effort(r, After(w, last.before), x.(unchecked := last.unchecked), last.chosen, last.es, last.moves, true)
  }

  /** No message the log names had a copy in Trash before the run. */
  ghost predicate NoPriorCopies(r: Run, log: seq<Line>) {
    forall l <- Intents(log) :: l in r.s0.mail ==> Copies(r.s0, r.trash, r.s0.mail[l].id) == {}
  }

  /** What Trash held before the run is there as it was. */
  ghost predicate OldThere(r: Run, s: Server) {
    forall l <- r.s0.mail :: l.folder == r.trash ==> l in s.mail && s.mail[l] == r.s0.mail[l]
  }

  /** What is kept from effort to effort. */
  ghost predicate OnTheWay(r: Run, w: World) {
    && WorldOk(w) && LogOk(r, w.log) && w.synced == |w.log| && r.trash != NOWHERE
    && NoPriorCopies(r, w.log) && OldThere(r, w.server)
  }

  /** Of every message undo is due as many copies as have arrived and are in
      Trash still. */
  ghost predicate Covered(r: Run, w: World, x: Site) {
    forall id :: |ArrivedOf(r, w, id)| <= Due(r, w, x, id)
  }

  lemma PriorOf(r: Run, log: seq<Line>, id: string)
    requires NoPriorCopies(r, log) && IntentsOf(r, log, id) != {}
    ensures Copies(r.s0, r.trash, id) == {}
  {
    var l :| l in IntentsOf(r, log, id);
    assert l in Intents(log) && r.s0.mail[l].id == id;
  }

  /** Of a recorded message Trash has only what has arrived. */
  lemma OnlyArrived(r: Run, w: World, id: string)
    requires OnTheWay(r, w) && IntentsOf(r, w.log, id) != {}
    ensures Copies(w.server, r.trash, id) == ArrivedOf(r, w, id)
  {
    PriorOf(r, w.log, id);
    forall l | l in Copies(w.server, r.trash, id) ensures l !in r.s0.mail {
      assert l in r.s0.mail ==> l in Copies(r.s0, r.trash, id);
    }
  }

  lemma ChosenOfOne(r: Run, w: World, x: Site, chosen: map<Loc, Folder>, id: string)
    requires OnTheWay(r, w) && Chooses(r, w, x, chosen)
    ensures var mine := chosen.Keys * Copies(w.server, r.trash, id);
      mine <= ArrivedOf(r, w, id) && (mine == ArrivedOf(r, w, id) <==> |ArrivedOf(r, w, id)| <= Due(r, w, x, id))
  {
    var d, k := TermsAt(r, w, x), Key(r.trash, id);
    var mine := chosen.Keys * Copies(w.server, r.trash, id);
    assert LogOk(r, w.log) && r.trash != NOWHERE;
    hide OnTheWay, LogOk, TermsOf, Due, ArrivedOf, Copies, IntentsOf;
    QuotaIsDue(r, w, x, id);
    if k in d.wants {
      OnlyArrived(r, w, id);
      WantedCopies(r, w, d, chosen, k);
      SubsetCount(mine, ArrivedOf(r, w, id));
    } else {
      UnwantedCopies(r, w, d, chosen, k);
    }
  }

  /** Undo chooses only what has arrived, and all of it if and only if it is due
      as much. */
  lemma ChosenArrived(r: Run, w: World, x: Site, chosen: map<Loc, Folder>)
    requires OnTheWay(r, w) && Chooses(r, w, x, chosen)
    ensures chosen.Keys <= Arrivals(r, w) && (chosen.Keys == Arrivals(r, w) <==> Covered(r, w, x))
  {
    hide OnTheWay, Chooses, Due;
    forall id ensures var mine := chosen.Keys * Copies(w.server, r.trash, id);
      mine <= ArrivedOf(r, w, id) && (mine == ArrivedOf(r, w, id) <==> |ArrivedOf(r, w, id)| <= Due(r, w, x, id))
    {
      ChosenOfOne(r, w, x, chosen, id);
    }
    forall l | l in chosen ensures l in Arrivals(r, w) {
      ChosenInTrash(r, w, x, chosen, l);
      assert l in chosen.Keys * Copies(w.server, r.trash, w.server.mail[l].id);
    }
    if chosen.Keys == Arrivals(r, w) {
      forall id ensures |ArrivedOf(r, w, id)| <= Due(r, w, x, id) {
        assert Arrivals(r, w) * Copies(w.server, r.trash, id) == ArrivedOf(r, w, id);
      }
    }
    if Covered(r, w, x) {
      forall l | l in Arrivals(r, w) ensures l in chosen {
        assert l in ArrivedOf(r, w, w.server.mail[l].id);
      }
    }
  }

  /** What an effort, on any path and however far it gets, leaves of the server:
      of Trash, all but what it chose, and nothing new; elsewhere, everything,
      with anything new at positions never used before. */
  ghost predicate Leaves(s: Server, t: Server, trash: Folder, chosen: map<Loc, Folder>) {
    LeavesTrash(s, t, trash, chosen) && LeavesOthers(s, t, trash)
  }

  ghost predicate LeavesTrash(s: Server, t: Server, trash: Folder, chosen: map<Loc, Folder>) {
    && (forall l <- t.mail :: l.folder == trash ==> l in s.mail && t.mail[l].id == s.mail[l].id)
    && forall l <- s.mail :: l.folder == trash && l !in chosen ==> l in t.mail && t.mail[l] == s.mail[l]
  }

  ghost predicate LeavesOthers(s: Server, t: Server, trash: Folder) {
    && t.next.Keys == s.next.Keys && (forall f <- s.next :: s.next[f] <= t.next[f])
    && forall l: Loc :: l.folder != trash && l.folder in s.next && l.uid < s.next[l.folder] ==>
         (l in t.mail <==> l in s.mail) && (l in t.mail ==> t.mail[l] == s.mail[l])
  }

  lemma {:induction false} EffortLeaves(w: World, es: History, trash: Folder, chosen: map<Loc, Folder>)
    requires WorldOk(w) && Within(es, chosen) && LegalRun(w, es) && trash !in chosen.Values
    requires forall l <- chosen :: l.folder == trash
    ensures WorldOk(Replay(w, es)) && Leaves(w.server, Replay(w, es).server, trash, chosen)
  {
    if es.Then? {
      EffortLeaves(w, es.past, trash, chosen);
      var v := Replay(w, es.past);
      StepOk(v, es.e);
      hide WorldOk, LegalRun, Within, Replay;
      LeavesStep(w.server, v, trash, chosen, es.e);
    }
  }

  lemma LeavesStep(s: Server, v: World, trash: Folder, chosen: map<Loc, Folder>, e: Event)
    requires Leaves(s, v.server, trash, chosen) && WorldOk(v) && Legal(v.server, e)
    requires e.Wrote? || (!e.Synced? && e.at in chosen && e.at.folder == trash)
    requires Arrives(e) ==> e.to.folder != trash
    ensures Leaves(s, Step(v, e).server, trash, chosen)
  {
    if !e.Wrote? {
      TouchesOne(v, e);
      hide Legal, ServerOk, Step, LeavesTrash, LeavesOthers, OneTouch;
      TrashTouched(s, v.server, Step(v, e).server, trash, chosen, e);
      OthersTouched(s, v.server, Step(v, e).server, trash, e);
    }
  }

  /** What one command does to one message. */
  ghost predicate OneTouch(s: Server, t: Server, e: Event)
    requires !e.Wrote? && !e.Synced?
  {
    && t.next.Keys == s.next.Keys && (forall f <- s.next :: s.next[f] <= t.next[f])
    && (forall l <- s.mail :: l != e.at ==> l in t.mail && t.mail[l] == s.mail[l])
    && (forall l <- t.mail :: l in s.mail || (Arrives(e) && l == e.to))
    && e.at in s.mail && (e.at in t.mail ==> t.mail[e.at].id == s.mail[e.at].id)
    && (Arrives(e) ==> e.to.folder in s.next && s.next[e.to.folder] <= e.to.uid)
  }

  lemma TouchesOne(v: World, e: Event)
    requires WorldOk(v) && Legal(v.server, e) && !e.Wrote? && !e.Synced?
    ensures OneTouch(v.server, Step(v, e).server, e)
  {
  }

  lemma TrashTouched(s: Server, v: Server, t: Server, trash: Folder, chosen: map<Loc, Folder>, e: Event)
    requires LeavesTrash(s, v, trash, chosen) && !e.Wrote? && !e.Synced? && OneTouch(v, t, e)
    requires e.at in chosen && e.at.folder == trash && (Arrives(e) ==> e.to.folder != trash)
    ensures LeavesTrash(s, t, trash, chosen)
  {
  }

  lemma OthersTouched(s: Server, v: Server, t: Server, trash: Folder, e: Event)
    requires LeavesOthers(s, v, trash) && !e.Wrote? && !e.Synced? && OneTouch(v, t, e)
    requires e.at.folder == trash && (Arrives(e) ==> e.to.folder != trash)
    ensures LeavesOthers(s, t, trash)
  {
  }

  /** Two logs that say the same of what was recorded and confirmed. */
  ghost predicate ReadsSame(r: Run, log: seq<Line>, log': seq<Line>) {
    Intents(log') == Intents(log) && Confirmed(log') == Confirmed(log) && forall id :: Goal(r, log')(id) == Goal(r, log)(id)
  }

  lemma SameReading(r: Run, log: seq<Line>, log': seq<Line>, x: Site)
    requires ReadsSame(r, log, log')
    ensures (forall id :: Clear(r, log, id)) ==> forall id :: Clear(r, log', id)
    ensures Permitted(r, log, x) ==> Permitted(r, log', x)
    ensures NoPriorCopies(r, log) ==> NoPriorCopies(r, log')
  {
    hide Goal;
    if forall id :: Clear(r, log, id) {
      forall id ensures Clear(r, log', id) {
        assert IntentsOf(r, log', id) == IntentsOf(r, log, id);
        assert Clear(r, log, id);
      }
    }
  }

  /** What holds of an effort's log holds of what a crash leaves of it. */
  lemma LogSurvives(r: Run, w: World, es: History, chosen: map<Loc, Folder>, k: nat)
    requires Within(es, chosen) && LogOk(r, w.log) && w.synced == |w.log|
    requires Replay(w, es).synced <= k <= |Replay(w, es).log|
    ensures var log := Replay(w, es).log[..k]; LogOk(r, log) && ReadsSame(r, w.log, log)
  {
    UndoLogs(r, w, es, chosen);
    forall id ensures Goal(r, Replay(w, es).log[..k])(id) == Goal(r, w.log)(id) {
      GoalSurvives(w, es, chosen, r.account, Key(r.trash, id), k);
    }
  }

  lemma {:induction false} FirstSourceOther(lines: seq<Line>, account: string, k: Key, l: Line)
    requires l.action != Move
    ensures FirstSource(lines + [l], account, k) == FirstSource(lines, account, k)
  {
    if lines != [] {
      assert (lines + [l])[1..] == lines[1..] + [l];
      FirstSourceOther(lines[1..], account, k, l);
    } else {
      assert ([] + [l])[1..] == [];
    }
  }

  lemma {:induction false} GoalSurvives(w: World, es: History, chosen: map<Loc, Folder>, account: string, key: Key, k: nat)
    requires Within(es, chosen) && |w.log| <= k <= |Replay(w, es).log|
    ensures w.log <= Replay(w, es).log
    ensures FirstSource(Replay(w, es).log[..k], account, key) == FirstSource(w.log, account, key)
  {
    if es.Then? {
      var v, t := Replay(w, es.past), Replay(w, es);
      if k <= |v.log| {
        GoalSurvives(w, es.past, chosen, account, key, k);
        assert t.log[..k] == v.log[..k];
      } else {
        LogNeverShrinks(w, es.past);
        GoalSurvives(w, es.past, chosen, account, key, |v.log|);
        assert v.log[..|v.log|] == v.log && t.log[..k] == v.log + [es.e.line];
        FirstSourceOther(v.log, account, key, es.e.line);
      }
    } else {
      assert w.log[..k] == w.log;
    }
  }

  lemma {:induction false} LogNeverShrinks(w: World, es: History)
    ensures w.log <= Replay(w, es).log
  {
    if es.Then? { LogNeverShrinks(w, es.past); }
  }

  /** An effort, interrupted by a crash or not, leaves a state from which undo can
      go on, whatever part of its own lines is lost; completed, it leaves nothing
      of the run in Trash if and only if it was due as much as was there. */
  lemma NextEffort(r: Run, w: World, x: Site, chosen: map<Loc, Folder>, es: History, moves: History, k: nat, complete: bool)
    requires OnTheWay(r, w) && Effort(r, w, x, chosen, es, moves, complete)
    requires Replay(w, es).synced <= k <= |Replay(w, es).log|
    ensures var v := Crash(Replay(w, es), k);
      && OnTheWay(r, v) && ReadsSame(r, w.log, v.log) && Leaves(w.server, v.server, r.trash, chosen)
      && chosen.Keys <= Arrivals(r, w) && Arrivals(r, v) <= Arrivals(r, w)
      && (complete ==> (Arrivals(r, v) == {} <==> Covered(r, w, x)))
  {
    OnItsWay(r, w);
    hide OnTheWay, Leaves, Chooses, LogOk, Covered, Goal, Attempt, LegalRun, Within, WorldOk, ReadsSame, Replay;
    if chosen != map[] || complete {
      ChosenArrived(r, w, x, chosen);
      ChosenElsewhere(r, w, x, chosen);
    }
    LogSurvives(r, w, es, chosen, k);
    EffortLeaves(w, es, r.trash, chosen);
    var v := Crash(Replay(w, es), k);
    StillOn(r, w, v, chosen);
    if complete { AllTaken(r, w, x, chosen, es, moves); }
  }

  lemma OnItsWay(r: Run, w: World)
    requires OnTheWay(r, w)
    ensures LogOk(r, w.log) && WorldOk(w) && r.trash != NOWHERE && w.synced == |w.log|
  {
  }

  lemma StillOn(r: Run, w: World, v: World, chosen: map<Loc, Folder>)
    requires OnTheWay(r, w) && Leaves(w.server, v.server, r.trash, chosen) && chosen.Keys <= Arrivals(r, w)
    requires ServerOk(v.server) && v.synced == |v.log| && LogOk(r, v.log) && ReadsSame(r, w.log, v.log)
    ensures OnTheWay(r, v) && Arrivals(r, v) <= Arrivals(r, w)
  {
    hide LogOk, Goal, Intents, Confirmed, ServerOk;
  }

  lemma AllTaken(r: Run, w: World, x: Site, chosen: map<Loc, Folder>, es: History, moves: History)
    requires Effort(r, w, x, chosen, es, moves, true) && r.trash !in chosen.Values && chosen.Keys <= Arrivals(r, w)
    ensures Arrivals(r, Replay(w, es)) == {} <==> chosen.Keys == Arrivals(r, w)
  {
    hide Chooses;
    TrashLeft(r, w, moves, chosen);
    var s := Replay(w, es).server;
    assert Arrivals(r, Replay(w, es)) == Arrivals(r, w) - chosen.Keys;
  }

  /** What efforts leave of a world, however many. */
  ghost predicate Onward(r: Run, w: World, v: World) {
    && ReadsSame(r, w.log, v.log) && LeavesOthers(w.server, v.server, r.trash)
    && forall l <- v.server.mail :: l.folder == r.trash ==> l in w.server.mail && v.server.mail[l].id == w.server.mail[l].id
  }

  lemma OnwardMore(r: Run, w: World, u: World, v: World, chosen: map<Loc, Folder>)
    requires Onward(r, w, u) && ReadsSame(r, u.log, v.log) && Leaves(u.server, v.server, r.trash, chosen)
    ensures Onward(r, w, v)
  {
    hide Goal, Intents, Confirmed;
  }

  lemma OnwardStart(r: Run, w: World)
    ensures Onward(r, w, w)
  {
    hide Goal, Intents, Confirmed;
  }

  lemma {:induction false} StillOnTheWay(r: Run, w: World, x: Site, tries: Tries)
    requires OnTheWay(r, w) && Interrupted(r, w, x, tries)
    ensures OnTheWay(r, After(w, tries)) && Onward(r, w, After(w, tries))
  {
    hide OnTheWay, Effort, ReadsSame, Leaves, Onward;
    if tries.Again? {
      var u := After(w, tries.before);
      StillOnTheWay(r, w, x, tries.before);
      NextEffort(r, u, x.(unchecked := tries.unchecked), tries.chosen, tries.es, tries.moves, tries.kept, false);
      OnwardMore(r, w, u, After(w, tries), tries.chosen);
    } else {
      OnwardStart(r, w);
    }
  }

  /** It was due all of the run that it found in Trash. */
  ghost predicate Sufficed(r: Run, w: World, x: Site, last: Tries)
    requires last.Again?
  {
    Covered(r, After(w, last.before), x.(unchecked := last.unchecked))
  }

  /** What an undo leaves that is the last of some and completed. */
  lemma LastLeaves(r: Run, w: World, x: Site, last: Tries)
    requires OnTheWay(r, w) && Completed(r, w, x, last)
    ensures OnTheWay(r, After(w, last)) && (Arrivals(r, After(w, last)) == {} <==> Sufficed(r, w, x, last))
  {
    hide OnTheWay, Effort, ReadsSame, Leaves, Covered;
    StillOnTheWay(r, w, x, last.before);
    var u := After(w, last.before);
    NextEffort(r, u, x.(unchecked := last.unchecked), last.chosen, last.es, last.moves, last.kept, true);
  }

  lemma TrashEmptied(r: Run, w: World)
    requires OnTheWay(r, w)
    ensures TrashAsBefore(r, w.server) <==> Arrivals(r, w) == {}
  {
    if TrashAsBefore(r, w.server) {
      assert forall l <- Arrivals(r, w) :: l in r.s0.mail;
    } else {
      var l: Loc :| l.folder == r.trash &&
        !((l in w.server.mail <==> l in r.s0.mail) && (l in w.server.mail ==> w.server.mail[l] == r.s0.mail[l]));
      assert l in Arrivals(r, w);
    }
  }

  ghost predicate Extends(tries: Tries, last: Tries) {
    tries == last || (tries.Again? && Extends(tries.before, last))
  }

  lemma NoneActed(w: World, es: History, chosen: map<Loc, Folder>)
    requires Within(es, chosen) && chosen == map[]
    ensures Replay(w, es).server == w.server && Acted(es) == {}
  {
  }

  /** With nothing of the run left in Trash, further undos do nothing. */
  lemma {:induction false} FurtherIdle(r: Run, w: World, x: Site, last: Tries, tries: Tries)
    requires OnTheWay(r, After(w, last)) && Arrivals(r, After(w, last)) == {}
    requires Interrupted(r, w, x, tries) && Extends(tries, last)
    ensures OnTheWay(r, After(w, tries)) && Arrivals(r, After(w, tries)) == {}
    ensures After(w, tries).server == After(w, last).server && (tries != last ==> Acted(tries.es) == {})
  {
    hide OnTheWay, Arrivals, ReadsSame, Leaves;
    if tries != last {
      var v := After(w, tries.before);
      FurtherIdle(r, w, x, last, tries.before);
      NextEffort(r, v, x.(unchecked := tries.unchecked), tries.chosen, tries.es, tries.moves, tries.kept, false);
      assert tries.chosen == map[];
      NoneActed(v, tries.es, tries.chosen);
    }
  }

  /** From a clear log that undo refuses nothing of it is due, at every stage, as
      much as has arrived, if no message was doubled. */
  lemma ClearCovers(r: Run, w: World, v: World, x: Site)
    requires Traced(r, w) && Doubled(r, w) == {} && (forall id :: Clear(r, w.log, id)) && Permitted(r, w.log, x)
    requires Onward(r, w, v) && LogOk(r, v.log)
    ensures Covered(r, v, x)
  {
    hide Traced, Doubled, Clear, Permitted, Onward, Due, LogOk, GoneOf, ArrivedOf;
    forall id ensures |ArrivedOf(r, v, id)| <= Due(r, v, x, id) {
      NoneDoubled(r, w, id);
      ArrivedCount(r, w, id);
      ArrivedLess(r, w, v, id);
      DueStays(r, w, v, x, id);
    }
  }

  lemma NoneDoubled(r: Run, w: World, id: string)
    requires Doubled(r, w) == {}
    ensures DoubledOf(r, w, id) == {}
  {
  }

  lemma ArrivedLess(r: Run, w: World, v: World, id: string)
    requires Onward(r, w, v)
    ensures |ArrivedOf(r, v, id)| <= |ArrivedOf(r, w, id)|
  {
    hide ReadsSame, LeavesOthers;
    SubsetCount(ArrivedOf(r, v, id), ArrivedOf(r, w, id));
  }

  lemma DueStays(r: Run, w: World, v: World, x: Site, id: string)
    requires Traced(r, w) && Clear(r, w.log, id) && Permitted(r, w.log, x) && Onward(r, w, v) && LogOk(r, v.log)
    ensures |GoneOf(r, w, id)| <= Due(r, v, x, id)
  {
    OnwardReads(r, w, v, x, id);
    PermittedSomewhere(r, w.log, x);
    hide Traced, Clear, Permitted, Onward, LogOk, GoneOf, IntentsOf, Seen, Here, RefusesGoal;
    SeenLess(r, w, v, x, id);
    RecordedCount(r, w, id);
    SubsetCount(Seen(r, v, x, id), Here(r, w, id));
    if IntentsOf(r, w.log, id) == {} {
      QuotaIsDue(r, v, x, id);
    } else {
      NotRefused(r, v, x, id);
    }
  }

  lemma PermittedSomewhere(r: Run, log: seq<Line>, x: Site)
    requires Permitted(r, log, x)
    ensures r.trash != NOWHERE
  {
  }

  lemma OnwardReads(r: Run, w: World, v: World, x: Site, id: string)
    requires Onward(r, w, v)
    ensures IntentsOf(r, v.log, id) == IntentsOf(r, w.log, id) && Confirmed(v.log) == Confirmed(w.log)
    ensures Goal(r, v.log)(id) == Goal(r, w.log)(id)
    ensures Permitted(r, w.log, x) ==> Permitted(r, v.log, x)
  {
    hide Permitted, LeavesOthers, Goal;
    SameReading(r, w.log, v.log, x);
  }

  /** Undo sees no more than was in its place: what it has restored is at new UIDs. */
  lemma SeenLess(r: Run, w: World, v: World, x: Site, id: string)
    requires Traced(r, w) && Clear(r, w.log, id) && Onward(r, w, v) && LogOk(r, v.log) && r.trash != NOWHERE
    ensures Seen(r, v, x, id) <= Here(r, w, id)
  {
    hide Traced, Onward, LogOk, Goal, Holding, Confirmed, IntentsOf;
    OnwardReads(r, w, v, x, id);
    TracedLog(r, w);
    var all, src := IntentsOf(r, w.log, id), Goal(r, w.log)(id);
    if OneFolder(all) {
      AllAtGoal(r, w, x, id);
      forall l | l in all && l.uid in Holding(v.server, src, id) ensures l in w.server.mail {
        HeldBefore(r, w, v, id, l);
      }
    }
  }

  lemma AllAtGoal(r: Run, w: World, x: Site, id: string)
    requires LogOk(r, w.log) && OneFolder(IntentsOf(r, w.log, id)) && r.trash != NOWHERE
    ensures forall l <- IntentsOf(r, w.log, id) :: l.folder == Goal(r, w.log)(id)
  {
    hide LogOk, Goal, IntentsOf, Due, TermsOf;
    QuotaIsDue(r, w, x, id);
  }

  lemma TracedLog(r: Run, w: World)
    requires Traced(r, w)
    ensures LogOk(r, w.log)
  {
  }

  lemma HeldBefore(r: Run, w: World, v: World, id: string, l: Loc)
    requires Traced(r, w) && Onward(r, w, v) && l in IntentsOf(r, w.log, id)
    requires l.uid in Holding(v.server, l.folder, id)
    ensures l in w.server.mail
  {
    NamedOriginal(r, w.log, l);
    var y :| y in Copies(v.server, l.folder, id) && y.uid == l.uid;
    assert y == l;
  }

  /** Each effort moved its messages, as on a server with MOVE. */
  ghost predicate ByMoves(r: Run, w: World, x: Site, tries: Tries) {
    match tries
    case Untried => true
    case Again(before, unchecked, chosen, es, _, _) =>
      && ByMoves(r, w, x, before)
      && Attempt(r, After(w, before), x.(unchecked := unchecked), chosen, es, false)
  }

  /** The messages among locs that goal sends to f and that are ok. */
  ghost function Homed(w: World, locs: set<Loc>, goal: string -> Folder, f: Folder, ok: Mail -> bool): set<Loc> {
    set l | l in locs && l in w.server.mail && goal(w.server.mail[l].id) == f && ok(w.server.mail[l])
  }

  /** The messages back have gone from Trash to where goal sends them, and nothing
      else has changed. */
  ghost predicate ComeBack(r: Run, w: World, v: World, back: set<Loc>, goal: string -> Folder) {
    && back <= Arrivals(r, w) && Arrivals(r, v) == Arrivals(r, w) - back
    && (forall l <- Arrivals(r, v) :: l in v.server.mail && l in w.server.mail && v.server.mail[l] == w.server.mail[l])
    && (forall l <- back :: l in w.server.mail && goal(w.server.mail[l].id) != r.trash)
    && forall f, ok: Mail -> bool :: f != r.trash ==>
         |Held(v.server, f, ok)| == |Held(w.server, f, ok)| + |Homed(w, back, goal, f, ok)|
  }

  lemma HomedMore(w: World, a: set<Loc>, b: set<Loc>, goal: string -> Folder, f: Folder, ok: Mail -> bool)
    requires a !! b
    ensures |Homed(w, a + b, goal, f, ok)| == |Homed(w, a, goal, f, ok)| + |Homed(w, b, goal, f, ok)|
  {
    assert Homed(w, a + b, goal, f, ok) == Homed(w, a, goal, f, ok) + Homed(w, b, goal, f, ok);
    assert Homed(w, a, goal, f, ok) !! Homed(w, b, goal, f, ok);
  }

  /** One attempt more. */
  lemma ComesBack(r: Run, w: World, u: World, back: set<Loc>, goal: string -> Folder, x: Site,
                  chosen: map<Loc, Folder>, es: History, complete: bool)
    requires ComeBack(r, w, u, back, goal) && OnTheWay(r, u) && (forall id :: Goal(r, u.log)(id) == goal(id))
    requires Attempt(r, u, x, chosen, es, complete)
    ensures ComeBack(r, w, Replay(u, es), back + Acted(es), goal)
  {
    hide OnTheWay, Chooses, Goal, Held, Homed, LegalRun, WorldOk, Restoring, Replay, Returning, Arrivals;
    OnItsWay(r, u);
    AttemptTakes(r, u, x, chosen, es, complete);
    GoalsOfChosen(r, u, x, chosen, goal, complete);
    var v, more := Replay(u, es), Acted(es);
    forall f, ok: Mail -> bool | f != r.trash
      ensures |Held(v.server, f, ok)| == |Held(w.server, f, ok)| + |Homed(w, back + more, goal, f, ok)|
    {
      RestoredHeld(r, u, es, chosen, f, ok);
      SameHoming(w, u, more, chosen, goal, f, ok);
      HomedMore(w, back, more, goal, f, ok);
    }
  }

  lemma AttemptTakes(r: Run, u: World, x: Site, chosen: map<Loc, Folder>, es: History, complete: bool)
    requires OnTheWay(r, u) && Attempt(r, u, x, chosen, es, complete)
    ensures Acted(es) <= chosen.Keys <= Arrivals(r, u) && r.trash !in chosen.Values
    ensures Arrivals(r, Replay(u, es)) == Arrivals(r, u) - Acted(es)
    ensures forall l <- Arrivals(r, Replay(u, es)) ::
              l in u.server.mail && l in Replay(u, es).server.mail && Replay(u, es).server.mail[l] == u.server.mail[l]
  {
    hide OnTheWay, Chooses, LogOk, WorldOk, LegalRun, Restoring, Replay, Arrivals, Covered;
    OnItsWay(r, u);
    if chosen != map[] || complete {
      ChosenArrived(r, u, x, chosen);
      ChosenElsewhere(r, u, x, chosen);
    } else {
      assert chosen.Keys == {} && chosen.Values == {};
    }
    ActedChosen(es, chosen);
    TrashLeft(r, u, es, chosen);
    ArrivalsLeft(r, u, Replay(u, es), Acted(es));
  }

  lemma ArrivalsLeft(r: Run, u: World, v: World, taken: set<Loc>)
    requires forall l: Loc :: l.folder == r.trash ==>
               && (l in v.server.mail <==> l in u.server.mail && l !in taken)
               && (l in v.server.mail ==> v.server.mail[l] == u.server.mail[l])
    ensures Arrivals(r, v) == Arrivals(r, u) - taken
    ensures forall l <- Arrivals(r, v) :: l in u.server.mail && l in v.server.mail && v.server.mail[l] == u.server.mail[l]
  {
  }

  lemma GoalsOfChosen(r: Run, u: World, x: Site, chosen: map<Loc, Folder>, goal: string -> Folder, complete: bool)
    requires complete || chosen != map[] ==> Chooses(r, u, x, chosen)
    requires forall id :: Goal(r, u.log)(id) == goal(id)
    ensures forall l <- chosen :: l in u.server.mail && l.folder == r.trash && chosen[l] == goal(u.server.mail[l].id)
  {
    forall l | l in chosen
      ensures l in u.server.mail && l.folder == r.trash && chosen[l] == goal(u.server.mail[l].id)
    {
      ChosenGoal(r, u, x, chosen, l);
      ChosenInTrash(r, u, x, chosen, l);
    }
  }

  lemma SameHoming(w: World, u: World, locs: set<Loc>, chosen: map<Loc, Folder>, goal: string -> Folder, f: Folder,
      ok: Mail -> bool)
    requires locs <= chosen.Keys
    requires forall l <- locs :: l in u.server.mail && l in w.server.mail && u.server.mail[l] == w.server.mail[l]
    requires forall l <- locs :: chosen[l] == goal(u.server.mail[l].id)
    ensures Returning(u, locs, chosen, f, ok) == Homed(w, locs, goal, f, ok)
  {
  }

  lemma ComeBackStart(r: Run, w: World, goal: string -> Folder)
    ensures ComeBack(r, w, w, {}, goal)
  {
    forall f, ok: Mail -> bool ensures Homed(w, {}, goal, f, ok) == {} {
    }
  }

  lemma ComeBackServer(r: Run, w: World, u: World, v: World, back: set<Loc>, goal: string -> Folder)
    requires ComeBack(r, w, u, back, goal) && v.server == u.server
    ensures ComeBack(r, w, v, back, goal)
  {
    assert Arrivals(r, v) == Arrivals(r, u);
  }

  lemma {:induction false} AllComeBack(r: Run, w: World, x: Site, tries: Tries) returns (back: set<Loc>)
    requires OnTheWay(r, w) && Interrupted(r, w, x, tries) && ByMoves(r, w, x, tries)
    ensures ComeBack(r, w, After(w, tries), back, Goal(r, w.log))
  {
    hide OnTheWay, Effort, Attempt, ComeBack, Goal;
    if tries.Again? {
      var u, goal := After(w, tries.before), Goal(r, w.log);
      StillOnTheWay(r, w, x, tries.before);
      var before := AllComeBack(r, w, x, tries.before);
      ComesBack(r, w, u, before, goal, x.(unchecked := tries.unchecked), tries.chosen, tries.es, false);
      back := before + Acted(tries.es);
      ComeBackServer(r, w, Replay(u, tries.es), After(w, tries), back, goal);
    } else {
      back := {};
      ComeBackStart(r, w, Goal(r, w.log));
    }
  }

  /** The last of some undos that moved completed, on either path, and left nothing
      of the run in Trash: everything that arrived has come back. */
  lemma LastComesBack(r: Run, w: World, x: Site, last: Tries)
    requires OnTheWay(r, w) && Completed(r, w, x, last) && ByMoves(r, w, x, last.before)
    requires Arrivals(r, After(w, last)) == {}
    ensures ComeBack(r, w, After(w, last), Arrivals(r, w), Goal(r, w.log))
  {
    var u, goal, y := After(w, last.before), Goal(r, w.log), x.(unchecked := last.unchecked);
    hide OnTheWay, Attempt, ComeBack, Goal;
    StillOnTheWay(r, w, x, last.before);
    var before := AllComeBack(r, w, x, last.before);
    ComesBack(r, w, u, before, goal, y, last.chosen, last.moves, true);
    var back := before + Acted(last.moves);
    ComeBackServer(r, w, Replay(u, last.moves), After(w, last), back, goal);
    AllBack(r, w, After(w, last), back, goal);
  }

  lemma AllBack(r: Run, w: World, v: World, back: set<Loc>, goal: string -> Folder)
    requires ComeBack(r, w, v, back, goal) && Arrivals(r, v) == {}
    ensures back == Arrivals(r, w)
  {
    assert Arrivals(r, w) <= back;
  }

  /** Two ways that bring everything back leave the same in every folder. */
  lemma SameEnd(r: Run, w: World, u: World, v: World, goal: string -> Folder)
    requires ComeBack(r, w, u, Arrivals(r, w), goal) && ComeBack(r, w, v, Arrivals(r, w), goal)
    requires TrashAsBefore(r, u.server) && TrashAsBefore(r, v.server)
    ensures forall f :: SameMail(u.server, v.server, f)
  {
    hide TrashAsBefore;
    forall f, m: Mail ensures |Instances(u.server, f, m)| == |Instances(v.server, f, m)| {
      InstancesHeld(u.server, f, m);
      InstancesHeld(v.server, f, m);
      if f == r.trash { SameTrash(r, u.server, v.server, m); }
    }
  }

  function IsMail(m: Mail): Mail -> bool {
    (x: Mail) => x == m
  }

  lemma InstancesHeld(s: Server, f: Folder, m: Mail)
    ensures Instances(s, f, m) == Held(s, f, IsMail(m))
  {
  }

  lemma SameTrash(r: Run, s: Server, t: Server, m: Mail)
    requires TrashAsBefore(r, s) && TrashAsBefore(r, t)
    ensures Instances(s, r.trash, m) == Instances(t, r.trash, m)
  {
  }

  /** Everything that arrived being back, every mailbox is as before the run if
      and only if no message was doubled and each has gone to its own folder. */
  lemma HomeAgain(r: Run, w: World, v: World, goal: string -> Folder)
    requires Traced(r, w) && ComeBack(r, w, v, Arrivals(r, w), goal) && TrashAsBefore(r, v.server)
    ensures AsBefore(r, v.server) <==>
            Doubled(r, w) == {} && forall l <- r.s0.mail :: l !in w.server.mail ==> goal(r.s0.mail[l].id) == l.folder
  {
    hide Traced, ComeBack, TrashAsBefore, Doubled, DoubledOf, GoneOf, SameMail;
    if AsBefore(r, v.server) {
      forall l | l in Doubled(r, w) ensures l in r.s0.mail && l in DoubledOf(r, w, r.s0.mail[l].id) {
        DoubledHasId(r, w, l);
      }
      forall id ensures DoubledOf(r, w, id) == {} && forall l <- GoneOf(r, w, id) :: l.folder == goal(id) {
        forall f ensures |Copies(r.s0, f, id)| == |Copies(v.server, f, id)| { SameCounts(r.s0, v.server, f, id); }
        CountsHome(r, w, v, goal, id);
      }
      forall l | l in r.s0.mail && l !in w.server.mail ensures goal(r.s0.mail[l].id) == l.folder {
        GoneHasId(r, w, l);
      }
    }
    if Doubled(r, w) == {} && forall l <- r.s0.mail :: l !in w.server.mail ==> goal(r.s0.mail[l].id) == l.folder {
      forall f ensures SameMail(r.s0, v.server, f) { MailHome(r, w, v, goal, f); }
    }
  }

  lemma DoubledHasId(r: Run, w: World, l: Loc)
    requires l in Doubled(r, w)
    ensures l in r.s0.mail && l in DoubledOf(r, w, r.s0.mail[l].id)
  {
  }

  lemma GoneHasId(r: Run, w: World, l: Loc)
    requires l in r.s0.mail && l !in w.server.mail
    ensures l in GoneOf(r, w, r.s0.mail[l].id)
  {
  }

  lemma CountsHome(r: Run, w: World, v: World, goal: string -> Folder, id: string)
    requires Traced(r, w) && ComeBack(r, w, v, Arrivals(r, w), goal)
    requires forall f :: |Copies(r.s0, f, id)| == |Copies(v.server, f, id)|
    ensures DoubledOf(r, w, id) == {} && forall l <- GoneOf(r, w, id) :: l.folder == goal(id)
  {
    ToGoal(r, w, v, goal, id);
    hide Traced, ComeBack, GoneOf, DoubledOf, ArrivedOf, Held, Copies;
    var n := |ArrivedOf(r, w, id)|;
    forall f | f != r.trash ensures |GoneIn(r, w, f, id)| == if f == goal(id) then n else 0 {
      FolderCount(r, w, f, id);
    }
    GoneOutside(r, w, id);
    AllFromGoal(r, w, id, goal(id), n);
    ArrivedCount(r, w, id);
  }

  /** What came back of one message. */
  lemma ToGoal(r: Run, w: World, v: World, goal: string -> Folder, id: string)
    requires ComeBack(r, w, v, Arrivals(r, w), goal)
    ensures goal(id) == r.trash ==> |ArrivedOf(r, w, id)| == 0
    ensures forall f :: f != r.trash ==>
              |Copies(v.server, f, id)| == |Copies(w.server, f, id)| + if f == goal(id) then |ArrivedOf(r, w, id)| else 0
  {
    if l :| l in ArrivedOf(r, w, id) { assert goal(w.server.mail[l].id) != r.trash; }
    forall f | f != r.trash
      ensures |Copies(v.server, f, id)| == |Copies(w.server, f, id)| + if f == goal(id) then |ArrivedOf(r, w, id)| else 0
    {
      HeldById(v.server, f, id);
      HeldById(w.server, f, id);
      HomedById(r, w, goal, f, id);
    }
  }

  lemma HomedById(r: Run, w: World, goal: string -> Folder, f: Folder, id: string)
    ensures Homed(w, Arrivals(r, w), goal, f, HasId(id)) == if f == goal(id) then ArrivedOf(r, w, id) else {}
  {
  }

  /** With no message doubled a folder holds what it held, but for what is gone. */
  lemma MailHome(r: Run, w: World, v: World, goal: string -> Folder, f: Folder)
    requires Traced(r, w) && Doubled(r, w) == {} && ComeBack(r, w, v, Arrivals(r, w), goal) && TrashAsBefore(r, v.server)
    requires forall l <- r.s0.mail :: l !in w.server.mail ==> goal(r.s0.mail[l].id) == l.folder
    ensures SameMail(r.s0, v.server, f)
  {
    forall m: Mail ensures |Instances(r.s0, f, m)| == |Instances(v.server, f, m)| {
      if f == r.trash {
        assert Instances(r.s0, f, m) == Instances(v.server, f, m);
      } else {
        hide Traced, Doubled, TrashAsBefore;
        InstancesHeld(v.server, f, m);
        MailGone(r, w, f, m);
        MailHomed(r, w, goal, f, m);
      }
    }
  }

  ghost function MailsGone(r: Run, w: World, f: Folder, m: Mail): set<Loc> {
    set l | l in r.s0.mail && l !in w.server.mail && l.folder == f && r.s0.mail[l] == m
  }

  lemma MailGone(r: Run, w: World, f: Folder, m: Mail)
    requires Traced(r, w) && Doubled(r, w) == {} && f != r.trash
    ensures |Instances(r.s0, f, m)| == |Held(w.server, f, IsMail(m))| + |MailsGone(r, w, f, m)|
  {
    forall l ensures l in Instances(r.s0, f, m) <==> l in Held(w.server, f, IsMail(m)) + MailsGone(r, w, f, m) {
      WhatIsWhere(r, w, l);
      assert l !in Doubled(r, w);
    }
    assert Held(w.server, f, IsMail(m)) !! MailsGone(r, w, f, m);
    assert Instances(r.s0, f, m) == Held(w.server, f, IsMail(m)) + MailsGone(r, w, f, m);
  }

  lemma MailHomed(r: Run, w: World, goal: string -> Folder, f: Folder, m: Mail)
    requires Traced(r, w) && Doubled(r, w) == {}
    requires forall l <- r.s0.mail :: l !in w.server.mail ==> goal(r.s0.mail[l].id) == l.folder
    ensures |Homed(w, Arrivals(r, w), goal, f, IsMail(m))| == |MailsGone(r, w, f, m)|
  {
    var at, ts := Origins(r, w), Homed(w, Arrivals(r, w), goal, f, IsMail(m));
    OriginsApart(r, w);
    OriginsGone(r, w);
    ImageCount(at, ts);
    hide Traced, Sourced, Doubled, Origins;
    forall l ensures l in Image(at, ts) <==> l in MailsGone(r, w, f, m) {
      if l in at.Values {
        ComeFrom(r, w, l);
        assert w.went[l] in at && at[w.went[l]] == l;
      }
    }
    assert Image(at, ts) == MailsGone(r, w, f, m);
  }

  /** The copy of a message that is gone. */
  lemma ComeFrom(r: Run, w: World, l: Loc)
    requires Traced(r, w) && l in r.s0.mail && l !in w.server.mail
    ensures l in w.went && w.went[l] in Arrivals(r, w) && w.went[l] in w.came && w.came[w.went[l]] == l
    ensures w.went[l] in w.server.mail && w.server.mail[w.went[l]] == r.s0.mail[l]
  {
    WhatIsWhere(r, w, l);
  }

  lemma SetOut(r: Run, v: World, k: nat)
    requires Ahead(r, v) && Landed(r, v) && v.synced <= k <= |v.log| && r.trash != NOWHERE && NoPriorCopies(r, Crash(v, k).log)
    ensures Traced(r, Crash(v, k)) && OnTheWay(r, Crash(v, k))
  {
    CrashTraced(r, v, k);
    hide Ahead, Landed, NoPriorCopies, LogOk;
    var w := Crash(v, k);
    forall l | l in r.s0.mail && l.folder == r.trash ensures l in w.server.mail && w.server.mail[l] == r.s0.mail[l] {
      WhatIsWhere(r, w, l);
    }
  }

  /** A delete run stops at any moment, on either path; undo is started and
      interrupted by crashes any number of times, on either path and at any moment
      each, and then completes. With no copy of a recorded message in Trash before
      the run, Trash is as it was if and only if the undo that completed was due as
      many copies of every message as of it were left in Trash; and undos after
      that, as many as there may be, do nothing. A clear log that undo refuses
      nothing of is enough, if no message was both in its folder and copied. Any of
      the undos may find sources that it cannot open. */
  lemma {:induction false} InterruptedUndo(r: Run, v: World, k: nat, x: Site, last: Tries, tries: Tries)
    requires Ahead(r, v) && Landed(r, v) && v.synced <= k <= |v.log| && r.trash != NOWHERE
    requires NoPriorCopies(r, Crash(v, k).log)
    requires Completed(r, Crash(v, k), x, last) && Interrupted(r, Crash(v, k), x, tries) && Extends(tries, last)
    ensures var w := Crash(v, k);
      var u := After(w, last).server;
      && (TrashAsBefore(r, u) <==> Sufficed(r, w, x, last))
      && (Sufficed(r, w, x, last) ==> After(w, tries).server == u && (tries != last ==> Acted(tries.es) == {}))
      && ((forall id :: Clear(r, w.log, id)) && Permitted(r, w.log, x) && Doubled(r, w) == {} ==> Sufficed(r, w, x, last))
  {
    assert last.Again?;
    hide Ahead, Landed, OnTheWay, Traced, TrashAsBefore, Interrupted, Permitted, Clear, NoPriorCopies, Completed,
        Sufficed, Doubled;
    var w := Crash(v, k);
    SetOut(r, v, k);
    LastLeaves(r, w, x, last);
    TrashEmptied(r, After(w, last));
    if Sufficed(r, w, x, last) { FurtherIdle(r, w, x, last, tries); }
    if (forall id :: Clear(r, w.log, id)) && Permitted(r, w.log, x) && Doubled(r, w) == {} { ClearSuffices(r, w, x, last); }
  }

  lemma ClearSuffices(r: Run, w: World, x: Site, last: Tries)
    requires Traced(r, w) && OnTheWay(r, w) && Completed(r, w, x, last)
    requires (forall id :: Clear(r, w.log, id)) && Permitted(r, w.log, x) && Doubled(r, w) == {}
    ensures Sufficed(r, w, x, last)
  {
    hide Traced, OnTheWay, Effort, Clear, Permitted, Covered, Doubled, Onward;
    StillOnTheWay(r, w, x, last.before);
    OnItsWay(r, After(w, last.before));
    PermittedUnchecked(r, w.log, x, last.unchecked);
    ClearCovers(r, w, After(w, last.before), x.(unchecked := last.unchecked));
  }

  lemma PermittedUnchecked(r: Run, log: seq<Line>, x: Site, unchecked: set<Folder>)
    requires Permitted(r, log, x)
    ensures Permitted(r, log, x.(unchecked := unchecked))
  {
  }

  /** On a server with MOVE, when the undo that completed sufficed: every mailbox
      is as before the run if and only if no message was both in its folder and
      copied and the first line for each message that is gone gives its own folder;
      and every mailbox holds what one uninterrupted undo that sufficed would have
      left in it. */
  lemma {:induction false} InterruptedMoves(r: Run, v: World, k: nat, x: Site, last: Tries, once: Tries)
    requires Ahead(r, v) && Landed(r, v) && v.synced <= k <= |v.log| && r.trash != NOWHERE
    requires NoPriorCopies(r, Crash(v, k).log)
    requires var w := Crash(v, k);
      Completed(r, w, x, last) && ByMoves(r, w, x, last.before) && Sufficed(r, w, x, last)
    requires Completed(r, Crash(v, k), x, once) && once.before == Untried
    ensures var w := Crash(v, k);
      var u := After(w, last).server;
      && (AsBefore(r, u) <==>
            && Doubled(r, w) == {}
            && forall l <- r.s0.mail :: l !in w.server.mail ==> Goal(r, w.log)(r.s0.mail[l].id) == l.folder)
      && (Sufficed(r, w, x, once) ==> forall f :: SameMail(After(w, once).server, u, f))
  {
    assert ByMoves(r, Crash(v, k), x, once.before);
    hide Ahead, Landed, OnTheWay, Traced, TrashAsBefore, Completed, Sufficed, Doubled, ByMoves, ComeBack, AsBefore,
      NoPriorCopies, Goal, SameMail;
    var w := Crash(v, k);
    SetOut(r, v, k);
    Home(r, w, x, last);
    HomeAgain(r, w, After(w, last), Goal(r, w.log));
    if Sufficed(r, w, x, once) {
      Home(r, w, x, once);
      SameEnd(r, w, After(w, once), After(w, last), Goal(r, w.log));
    }
  }

  lemma Home(r: Run, w: World, x: Site, last: Tries)
    requires OnTheWay(r, w) && Completed(r, w, x, last) && ByMoves(r, w, x, last.before) && Sufficed(r, w, x, last)
    ensures ComeBack(r, w, After(w, last), Arrivals(r, w), Goal(r, w.log)) && TrashAsBefore(r, After(w, last).server)
  {
    hide OnTheWay, Completed, ByMoves, ComeBack, Goal, TrashAsBefore;
    LastLeaves(r, w, x, last);
    TrashEmptied(r, After(w, last));
    LastComesBack(r, w, x, last);
  }
}
