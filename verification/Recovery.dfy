/** Crash safety of delete and undo together: what an undo makes of the log
    and the server that a crash at any moment of a delete run leaves. */
module Recovery {
  import opened Mailbox
  import opened Audit
  import opened Events
  import opened Uids
  import opened WriteAhead
  import opened UndoPlan
  import opened Undo
  import opened UndoPolicy
  import opened Entitlement

  /** Where the run's messages are after some of them have been restored. */
  ghost function Return(at: map<Loc, Loc>, es: History): map<Loc, Loc> {
    match es
    case Start => at
    case Then(past, Moved(l, to)) =>
      var before := Return(at, past);
      if l in before then (before - {l})[to := before[l]] else before
    case Then(past, _) => Return(at, past)
  }

  lemma ReturnOne(r: Run, s: Server, at: map<Loc, Loc>, l: Loc, to: Loc)
    requires Placed(r, s, at) && l in Out(r, at) && Legal(s, Moved(l, to)) && to.folder != r.trash
    ensures var at' := (at - {l})[to := at[l]];
      && Placed(r, ServerStep(s, Moved(l, to)), at')
      && at'.Values == at.Values && Out(r, at') == Out(r, at) - {l} && to !in at && to !in s.mail
  {
    hide Displace, Injective, Elsewhere;
    NowAt(r, s, at, l);
    NowAt(r, s, at, to);
    ReturnDisplace(r, s, at, l, to);
    ReturnInjective(at, l, to);
    ReturnElsewhere(r, s, at, l, to);
  }

  lemma ReturnElsewhere(r: Run, s: Server, at: map<Loc, Loc>, l: Loc, to: Loc)
    requires Elsewhere(r, at) && l in at && CanArrive(s, to) && s.next.Keys == r.s0.next.Keys
    requires forall f <- s.next :: r.s0.next[f] <= s.next[f]
    ensures Elsewhere(r, (at - {l})[to := at[l]])
  {
  }

  lemma ReturnInjective(at: map<Loc, Loc>, l: Loc, to: Loc)
    requires Injective(at) && l in at && to !in at
    ensures Injective((at - {l})[to := at[l]]) && (at - {l})[to := at[l]].Values == at.Values
  {
    var at' := (at - {l})[to := at[l]];
    assert at'[to] == at[l];
    forall v | v in at.Values ensures v in at'.Values {
      var t :| t in at && at[t] == v;
      if t != l { assert at'[t] == v; }
    }
  }

  lemma ReturnDisplace(r: Run, s: Server, at: map<Loc, Loc>, l: Loc, to: Loc)
    requires s.mail == Displace(r.s0, at) && Injective(at)
    requires l in at && at[l] in r.s0.mail && l !in r.s0.mail && to !in at && to !in s.mail && s.mail[l] == r.s0.mail[at[l]]
    ensures (s.mail - {l})[to := s.mail[l]] == Displace(r.s0, (at - {l})[to := at[l]])
  {
    var at' := (at - {l})[to := at[l]];
    ReturnInjective(at, l, to);
    var a, b := (s.mail - {l})[to := s.mail[l]], Displace(r.s0, at');
    hide Injective;
    assert forall x :: x in a <==> x in b;
    assert forall x :: x in a ==> a[x] == b[x];
  }

  /** Every message of the run that is out of Trash again is where goal sends
      messages with its Message-ID. */
  ghost predicate Sorted(r: Run, at: map<Loc, Loc>, goal: string -> Folder) {
    forall t <- at :: t.folder != r.trash && at[t] in r.s0.mail ==> t.folder == goal(r.s0.mail[at[t]].id)
  }

  /** An undo, however far it gets, moves chosen messages where goal sends them. */
  lemma {:induction false} ReturnRun(r: Run, w: World, at: map<Loc, Loc>, es: History, chosen: map<Loc, Folder>,
      goal: string -> Folder)
    requires WorldOk(w) && Placed(r, w.server, at) && Sorted(r, at, goal)
    requires Restoring(es, chosen) && LegalRun(w, es) && chosen.Keys <= Out(r, at)
    requires forall t <- chosen :: chosen[t] != r.trash && chosen[t] == goal(r.s0.mail[at[t]].id)
    ensures var t, at' := Replay(w, es), Return(at, es);
      && WorldOk(t) && Placed(r, t.server, at') && Sorted(r, at', goal)
      && at'.Values == at.Values && Out(r, at') == Out(r, at) - Acted(es)
      && forall l <- Out(r, at') :: l in at && at'[l] == at[l]
  {
    hide Placed, Sorted;
    if es.Then? {
      ReturnRun(r, w, at, es.past, chosen, goal);
      var v, at1 := Replay(w, es.past), Return(at, es.past);
      StepOk(v, es.e);
      if es.e.Moved? {
        NowAt(r, w.server, at, es.e.at);
        ReturnOne(r, v.server, at1, es.e.at, es.e.to);
        ReturnSorted(r, at1, es.e.at, es.e.to, goal);
      }
    }
  }

  lemma ReturnSorted(r: Run, at: map<Loc, Loc>, l: Loc, to: Loc, goal: string -> Folder)
    requires Sorted(r, at, goal) && l in at && at[l] in r.s0.mail && to.folder == goal(r.s0.mail[at[l]].id)
    ensures Sorted(r, (at - {l})[to := at[l]], goal)
  {
  }

  /** The lines an undo writes change nothing an undo reads. */
  lemma {:induction false} UndoLogs(r: Run, w: World, es: History, chosen: map<Loc, Folder>)
    requires Within(es, chosen) && LogOk(r, w.log)
    ensures var t := Replay(w, es);
      && w.log <= t.log && t.synced == w.synced
      && forall k: nat :: |w.log| <= k <= |t.log| ==> SameLines(r, w.log, t.log[..k])
  {
    hide LogOk, Intents, Confirmed;
    if es.Then? {
      UndoLogs(r, w, es.past, chosen);
      var v, t := Replay(w, es.past), Replay(w, es);
      assert t == Step(v, es.e);
      assert SameLines(r, w.log, v.log) by { assert v.log[..|v.log|] == v.log; }
      if es.e.Wrote? { OtherLine(r, w.log, v.log, es.e.line); }
      hide Step, SameLines, Replay, Within;
      forall k: nat | |w.log| <= k <= |t.log| ensures SameLines(r, w.log, t.log[..k]) {
        if k <= |v.log| { assert t.log[..k] == v.log[..k]; } else { assert t.log[..k] == t.log; }
      }
    } else {
      assert w.log[..|w.log|] == w.log;
    }
  }

  /** A well-formed log that records and confirms what the log before did. */
  ghost predicate SameLines(r: Run, before: seq<Line>, log: seq<Line>) {
    LogOk(r, log) && Intents(log) == Intents(before) && Confirmed(log) == Confirmed(before)
  }

  lemma OtherLine(r: Run, before: seq<Line>, log: seq<Line>, l: Line)
    requires SameLines(r, before, log) && l.action != Move
    ensures SameLines(r, before, log + [l])
  {
    LogSnoc(r, log, l);
    ReadSnoc(log, l);
  }

  /** Where a folder's part of mail holds the message m. */
  ghost function In(mail: map<Loc, Mail>, f: Folder, m: Mail): set<Loc> {
    set l | l in mail && l.folder == f && mail[l] == m
  }

  /** Moving a message to another position in the same folder changes no count. */
  lemma ShiftCount(mail: map<Loc, Mail>, o: Loc, t: Loc, f: Folder, m: Mail)
    requires o in mail && t !in mail && t.folder == o.folder
    ensures |In((mail - {o})[t := mail[o]], f, m)| == |In(mail, f, m)|
  {
    var a, b := In(mail, f, m), In((mail - {o})[t := mail[o]], f, m);
    if o.folder == f && mail[o] == m {
      assert b == a - {o} + {t};
    } else {
      assert b == a;
    }
  }

  lemma {:induction false} HomeSame(r: Run, at: map<Loc, Loc>, f: Folder, m: Mail)
    requires ServerOk(r.s0) && Elsewhere(r, at) && Injective(at) && forall t <- at :: t.folder == at[t].folder
    ensures |In(Displace(r.s0, at), f, m)| == |Instances(r.s0, f, m)|
    decreases |at|
  {
    hide Displace, Injective, In, Elsewhere, ServerOk, Instances;
    if at == map[] {
      NoneMoved(r, f, m);
    } else {
      var t :| t in at;
      var rest := at - {t};
      OneOfMany(r, at, t);
      HomeSame(r, rest, f, m);
      DisplaceMore(r.s0, rest, at[t], t);
      ShiftCount(Displace(r.s0, rest), at[t], t, f, m);
    }
  }

  lemma NoneMoved(r: Run, f: Folder, m: Mail)
    ensures In(Displace(r.s0, map[]), f, m) == Instances(r.s0, f, m)
  {
    assert Displace(r.s0, map[]) == r.s0.mail;
  }

  lemma OneOfMany(r: Run, at: map<Loc, Loc>, t: Loc)
    requires ServerOk(r.s0) && Elsewhere(r, at) && Injective(at) && t in at
    ensures var rest := at - {t};
      && rest[t := at[t]] == at && Elsewhere(r, rest) && Injective(rest)
      && at[t] in r.s0.mail && at[t] !in rest.Values && at[t] !in rest && t !in rest && t !in r.s0.mail
      && t !in Displace(r.s0, rest)
  {
  }

  /** Trash is as it was before the run. */
  ghost predicate TrashAsBefore(r: Run, s: Server) {
    forall l: Loc :: l.folder == r.trash ==>
      (l in s.mail <==> l in r.s0.mail) && (l in s.mail ==> s.mail[l] == r.s0.mail[l])
  }

  /** Every mailbox holds what it held before the run, and Trash the very same copies. */
  ghost predicate AsBefore(r: Run, s: Server) {
    TrashAsBefore(r, s) && forall f :: SameMail(r.s0, s, f)
  }

  /** With nothing of the run left in Trash, Trash is as it was; and every
      mailbox is too if and only if every message went back to its own folder. */
  lemma AllOut(r: Run, s: Server, at: map<Loc, Loc>, goal: string -> Folder)
    requires Placed(r, s, at) && Sorted(r, at, goal) && Out(r, at) == {}
    ensures TrashAsBefore(r, s)
    ensures AsBefore(r, s) <==> forall t <- at :: goal(r.s0.mail[at[t]].id) == at[t].folder
  {
    forall l: Loc | l.folder == r.trash
      ensures (l in s.mail <==> l in r.s0.mail) && (l in s.mail ==> s.mail[l] == r.s0.mail[l])
    {
      NowAt(r, s, at, l);
      assert l in at ==> l in Out(r, at);
    }
    if forall t <- at :: goal(r.s0.mail[at[t]].id) == at[t].folder {
      forall f, m: Mail ensures |Instances(r.s0, f, m)| == |Instances(s, f, m)| {
        assert Instances(s, f, m) == In(s.mail, f, m);
        AllHome(r, s, at, goal);
        HomeSame(r, at, f, m);
      }
    } else {
      var t :| t in at && goal(r.s0.mail[at[t]].id) != at[t].folder;
      StrayLost(r, s, at, goal, t);
    }
  }

  lemma AllHome(r: Run, s: Server, at: map<Loc, Loc>, goal: string -> Folder)
    requires Placed(r, s, at) && Sorted(r, at, goal) && Out(r, at) == {}
    requires forall t <- at :: goal(r.s0.mail[at[t]].id) == at[t].folder
    ensures forall t <- at :: t.folder == at[t].folder
  {
    forall t | t in at ensures t.folder == at[t].folder {
      assert t !in Out(r, at);
    }
  }

  /** A message sent to another folder is missing from its own. */
  lemma StrayLost(r: Run, s: Server, at: map<Loc, Loc>, goal: string -> Folder, t: Loc)
    requires Placed(r, s, at) && Sorted(r, at, goal) && Out(r, at) == {}
    requires t in at && goal(r.s0.mail[at[t]].id) != at[t].folder
    ensures !SameMail(r.s0, s, at[t].folder)
  {
    var o := at[t];
    var f, m := o.folder, r.s0.mail[o];
    forall l | l in Instances(s, f, m) ensures l in Instances(r.s0, f, m) - {o} {
      NowAt(r, s, at, l);
      assert l !in Out(r, at);
    }
    SubsetCount(Instances(s, f, m), Instances(r.s0, f, m) - {o});
    assert o in Instances(r.s0, f, m);
  }

  /** One undo: what it chose in Trash and how far it got with restoring it. */
  ghost predicate Attempt(r: Run, w: World, x: Site, chosen: map<Loc, Folder>, es: History, complete: bool) {
    && (complete || chosen != map[] ==> Chooses(r, w, x, chosen))
    && Restoring(es, chosen) && LegalRun(w, es) && (complete ==> Acted(es) == chosen.Keys)
  }

  lemma ChosenElsewhere(r: Run, w: World, x: Site, chosen: map<Loc, Folder>)
    requires LogOk(r, w.log) && Chooses(r, w, x, chosen)
    ensures r.trash !in chosen.Values
  {
    WantedFromTrash(r, w.log, ConfirmedBy(w.log, r.account));
  }

  /** What Undo.Run does on a server with MOVE is an attempt, complete if the
      run is; on one without, a complete run leaves what a complete attempt
      would. */
  lemma UndoneIsAttempt(hasMove: bool, r: Run, w: World, x: Site, logs: History, picks: seq<Pick>, complete: bool)
    returns (chosen: map<Loc, Folder>, es: History)
    requires LogOk(r, w.log) && LegalRun(w, Told(logs, picks)) && (hasMove || complete)
    requires Undone(hasMove, w, TermsAt(r, w, x), logs, picks, complete)
    ensures Attempt(r, w, x, chosen, es, complete) && Replay(w, es).server == Replay(w, Told(logs, picks)).server
    ensures hasMove ==> es == Told(logs, picks)
  {
    WantedFromTrash(r, w.log, ConfirmedBy(w.log, r.account));
    var d := TermsAt(r, w, x);
    if picks == [] {
      chosen, es := map[], logs;
      LogsWithin(logs, chosen);
      if complete { NothingWanted(r, w, x); }
    } else {
      OnePart(r, d.wants, picks);
      var p := picks[0];
      assert picks == [p] && picks[..0] == [] && Told(logs, []) == logs;
      LogsOnlyKeeps(w, logs);
      assert PickOk(hasMove, Replay(w, logs), d, p, complete);
      chosen, es := p.chosen, Append(logs, p.moves);
      PartIsAttempt(hasMove, r, w, d, x, logs, p, complete);
    }
  }

  lemma NothingWanted(r: Run, w: World, x: Site)
    requires DstsOf(TermsAt(r, w, x).wants) == {}
    ensures Chooses(r, w, x, map[])
  {
    var d := TermsAt(r, w, x);
    assert forall k :: k in d.wants ==> k.dst in DstsOf(d.wants);
    assert OfFolder(d.wants, r.trash) == {};
  }

  lemma OnePart(r: Run, wants: map<Key, Want>, picks: seq<Pick>)
    requires picks != [] && Dsts(picks) <= DstsOf(wants) && forall k <- wants :: k.dst == r.trash
    requires forall i, j :: 0 <= i < j < |picks| ==> picks[i].dst != picks[j].dst
    ensures |picks| == 1 && picks[0].dst == r.trash
  {
    assert |picks| > 1 ==> picks[0].dst != picks[1].dst;
    assert forall i :: 0 <= i < |picks| ==> picks[i].dst in Dsts(picks);
  }

  lemma PartIsAttempt(hasMove: bool, r: Run, w: World, d: Terms, x: Site, logs: History, p: Pick, complete: bool)
    requires LogOk(r, w.log) && d == TermsAt(r, w, x) && p.dst == r.trash && (hasMove || complete)
    requires LogsOnly(logs) && Replay(w, logs).server == w.server
    requires TermsOk(d) && PickOk(hasMove, Replay(w, logs), d, p, complete) && LegalRun(w, Append(logs, p.es))
    ensures Attempt(r, w, x, p.chosen, Append(logs, p.moves), complete)
    ensures Replay(w, Append(logs, p.moves)).server == Replay(w, Append(logs, p.es)).server
    ensures hasMove ==> p.moves == p.es
  {
    hide LogOk, TermsOf, TermsOk, Picked, LegalRun, Replay;
    if p.chosen != map[] || complete { ChosenElsewhere(r, w, x, p.chosen); } else { assert p.chosen.Values == {}; }
    LogsWithin(logs, p.chosen);
    RestoringAppend(logs, p.moves, p.chosen);
    AppendActed(logs, p.moves);
    AppendReplay(w, logs, p.moves);
    AppendReplay(w, logs, p.es);
  }

  /** The log after a crash: its first k lines. */
  ghost function Crash(w: World, k: nat): World
    requires k <= |w.log|
  {
    w.(log := w.log[..k], synced := k)
  }

  lemma ChosenGoal(r: Run, w: World, x: Site, chosen: map<Loc, Folder>, l: Loc)
    requires Chooses(r, w, x, chosen) && l in chosen
    ensures l in w.server.mail && chosen[l] == Goal(r, w.log)(w.server.mail[l].id)
  {
    hide WantsOf, FirstSource, Quotas, Newest;
    ChosenInTrash(r, w, x, chosen, l);
    WantsMeaning(w.log, r.account, ConfirmedBy(w.log, r.account), Key(r.trash, w.server.mail[l].id));
  }

  lemma ChosenGoals(r: Run, w: World, at: map<Loc, Loc>, x: Site, chosen: map<Loc, Folder>)
    requires Placed(r, w.server, at) && LogOk(r, w.log) && Chooses(r, w, x, chosen) && chosen.Keys <= Out(r, at)
    ensures forall t <- chosen :: chosen[t] != r.trash && chosen[t] == Goal(r, w.log)(r.s0.mail[at[t]].id)
  {
    hide Placed, LogOk, Chooses, Goal;
    ChosenElsewhere(r, w, x, chosen);
    TakenExist(r, w.server, at);
    assert forall t <- at :: at[t] in at.Values;
    forall t | t in chosen ensures chosen[t] != r.trash && chosen[t] == Goal(r, w.log)(r.s0.mail[at[t]].id) {
      OutHasId(r, w, at, t);
      NowAt(r, w.server, at, t);
      ChosenGoal(r, w, x, chosen, t);
    }
  }

  /** Where an attempt leaves the run's messages, if undo has nothing to mix up. */
  ghost predicate Returns(r: Run, w: World, at: map<Loc, Loc>, at': map<Loc, Loc>, es: History, goal: string -> Folder) {
    && WorldOk(Replay(w, es)) && Placed(r, Replay(w, es).server, at') && Sorted(r, at', goal)
    && at'.Values == at.Values && Out(r, at') == Out(r, at) - Acted(es)
  }

  /** An attempt that chooses nothing but the run's messages restores some of
      what the run took, however far it gets. */
  lemma AttemptMoves(r: Run, w: World, at: map<Loc, Loc>, x: Site, chosen: map<Loc, Folder>, es: History, complete: bool)
    requires WorldOk(w) && Placed(r, w.server, at) && Witnessed(r, w.log, at.Values) && r.trash != NOWHERE
    requires chosen.Keys <= Out(r, at) && Sorted(r, at, Goal(r, w.log))
    requires Attempt(r, w, x, chosen, es, complete)
    ensures Returns(r, w, at, Return(at, es), es, Goal(r, w.log)) && Acted(es) <= Out(r, at)
  {
    hide Placed, Chooses, Sorted, LogOk, Goal;
    if chosen != map[] { ChosenGoals(r, w, at, x, chosen); }
    ReturnRun(r, w, at, es, chosen, Goal(r, w.log));
    ActedChosen(es, chosen);
  }

  /** One due exactly what it finds is such, and takes all of it if it completes. */
  lemma AttemptReturns(r: Run, w: World, at: map<Loc, Loc>, x: Site, chosen: map<Loc, Folder>, es: History, complete: bool)
    requires WorldOk(w) && Placed(r, w.server, at) && Witnessed(r, w.log, at.Values) && r.trash != NOWHERE
    requires (forall id :: Balanced(r, w, at, x, id)) && Sorted(r, at, Goal(r, w.log))
    requires Attempt(r, w, x, chosen, es, complete)
    ensures Returns(r, w, at, Return(at, es), es, Goal(r, w.log)) && Acted(es) <= Out(r, at)
    ensures complete ==> chosen.Keys == Acted(es) == Out(r, at)
  {
    hide Placed, Chooses, Sorted, Balanced, LogOk, Goal, Restoring, Returns;
    if chosen != map[] || complete { ChosenExact(r, w, at, x, chosen); }
    AttemptMoves(r, w, at, x, chosen, es, complete);
  }

  lemma ActedChosen(es: History, chosen: map<Loc, Folder>)
    requires Restoring(es, chosen)
    ensures Acted(es) <= chosen.Keys
  {
  }

  /** What an undo leaves in Trash: what there was but for what it took. */
  lemma {:induction false} TrashLeft(r: Run, w: World, es: History, chosen: map<Loc, Folder>)
    requires Restoring(es, chosen) && LegalRun(w, es) && r.trash !in chosen.Values
    ensures var s := Replay(w, es).server;
      forall l: Loc :: l.folder == r.trash ==>
        && (l in s.mail <==> l in w.server.mail && l !in Acted(es))
        && (l in s.mail ==> s.mail[l] == w.server.mail[l])
  {
    if es.Then? {
      TrashLeft(r, w, es.past, chosen);
      assert es.e.Moved? ==> es.e.to.folder in chosen.Values;
    }
  }

  /** So Trash is as before the run exactly if the undo took the run's messages
      that were still in it. */
  lemma TrashBefore(r: Run, w: World, at: map<Loc, Loc>, es: History, chosen: map<Loc, Folder>)
    requires Placed(r, w.server, at)
    requires Restoring(es, chosen) && LegalRun(w, es) && r.trash !in chosen.Values
    requires forall l <- Acted(es) :: l in w.server.mail && l.folder == r.trash
    ensures TrashAsBefore(r, Replay(w, es).server) <==> Acted(es) == Out(r, at)
  {
    hide Placed;
    TrashLeft(r, w, es, chosen);
    var s := Replay(w, es).server;
    forall l: Loc | l.folder == r.trash
      ensures l in w.server.mail <==> l in Out(r, at) || l in r.s0.mail
      ensures l in Out(r, at) ==> l !in r.s0.mail
      ensures l in w.server.mail && l !in Out(r, at) ==> w.server.mail[l] == r.s0.mail[l]
    {
      NowAt(r, w.server, at, l);
    }
    if TrashAsBefore(r, s) {
      assert forall l <- Acted(es) :: l in Out(r, at);
      assert forall l <- Out(r, at) :: l in Acted(es);
    }
  }

  /** What a completed undo leaves, wherever the undos before it stopped: Trash
      as before the run if and only if it was due exactly what it found of the
      run; and every mailbox if and only if, besides, the first line for each
      message taken gives its own folder. */
  lemma AttemptLeaves(r: Run, w: World, at: map<Loc, Loc>, x: Site, chosen: map<Loc, Folder>, es: History)
    requires WorldOk(w) && Placed(r, w.server, at) && Witnessed(r, w.log, at.Values) && r.trash != NOWHERE
    requires Sorted(r, at, Goal(r, w.log)) && Attempt(r, w, x, chosen, es, true)
    ensures TrashAsBefore(r, Replay(w, es).server) <==> forall id :: Balanced(r, w, at, x, id)
    ensures AsBefore(r, Replay(w, es).server) <==>
            (forall id :: Balanced(r, w, at, x, id)) && forall t <- at :: Goal(r, w.log)(r.s0.mail[at[t]].id) == at[t].folder
  {
    hide Placed, SameMail, TrashAsBefore, Chooses, Balanced, LogOk, Goal, Sorted;
    var goal := Goal(r, w.log);
    ChosenExact(r, w, at, x, chosen);
    ChosenElsewhere(r, w, x, chosen);
    forall l | l in chosen ensures l in w.server.mail && l.folder == r.trash { ChosenInTrash(r, w, x, chosen, l); }
    TrashBefore(r, w, at, es, chosen);
    if forall id :: Balanced(r, w, at, x, id) {
      AttemptReturns(r, w, at, x, chosen, es, true);
      AllOut(r, Replay(w, es).server, Return(at, es), goal);
      TakenExist(r, w.server, at);
      SameGoals(r, at, Return(at, es), goal);
    }
  }

  /** One undo, completed, after nothing has been restored yet: Trash is left
      with exactly the copies it held before the run if and only if undo can
      tell them apart; and every mailbox with its messages if and only if also
      the first line for each message taken gives the folder it was taken from. */
  lemma CompleteUndo(r: Run, w: World, at: map<Loc, Loc>, x: Site, chosen: map<Loc, Folder>, es: History)
    requires WorldOk(w) && Placed(r, w.server, at) && Witnessed(r, w.log, at.Values) && r.trash != NOWHERE
    requires Out(r, at) == at.Keys && Attempt(r, w, x, chosen, es, true)
    ensures TrashAsBefore(r, Replay(w, es).server) <==> forall id :: TellsApart(r, w, x, id)
    ensures AsBefore(r, Replay(w, es).server) <==>
            (forall id :: TellsApart(r, w, x, id)) && forall t <- at :: Goal(r, w.log)(r.s0.mail[at[t]].id) == at[t].folder
  {
    hide Placed, AsBefore, TrashAsBefore, Attempt, Balanced, TellsApart, LogOk, Goal;
    forall id ensures TellsApart(r, w, x, id) <==> Balanced(r, w, at, x, id) {
      TellsApartBalances(r, w, at, x, id);
    }
    NothingBack(r, at, Goal(r, w.log));
    AttemptLeaves(r, w, at, x, chosen, es);
  }

  /** And one completed after others were interrupted, from a state undo can
      recover: Trash is as before if and only if no message of which a copy was
      restored had copies in Trash before the run. */
  lemma CompleteRerun(r: Run, w: World, at: map<Loc, Loc>, x: Site, chosen: map<Loc, Folder>, es: History)
    requires Recoverable(r, w, at, x) && Sorted(r, at, Goal(r, w.log)) && x.unchecked == {}
    requires Attempt(r, w, x, chosen, es, true)
    ensures TrashAsBefore(r, Replay(w, es).server) <==> forall id :: Unmixed(r, at, id)
    ensures AsBefore(r, Replay(w, es).server) <==>
            (forall id :: Unmixed(r, at, id)) && forall t <- at :: Goal(r, w.log)(r.s0.mail[at[t]].id) == at[t].folder
  {
    hide AsBefore, TrashAsBefore, Attempt, Balanced, Unmixed, Clear, Goal, LogOk;
    forall id ensures Unmixed(r, at, id) <==> Balanced(r, w, at, x, id) {
      RecoverableDue(r, w, at, x, id);
    }
    AttemptLeaves(r, w, at, x, chosen, es);
  }

  lemma NothingBack(r: Run, at: map<Loc, Loc>, goal: string -> Folder)
    requires Out(r, at) == at.Keys
    ensures Sorted(r, at, goal)
  {
    assert forall t <- at :: t in Out(r, at);
  }

  lemma TakenExist(r: Run, s: Server, at: map<Loc, Loc>)
    requires Placed(r, s, at)
    ensures forall v <- at.Values :: v in r.s0.mail
  {
  }

  lemma SameGoals(r: Run, at: map<Loc, Loc>, at': map<Loc, Loc>, goal: string -> Folder)
    requires at.Values == at'.Values && forall v <- at.Values :: v in r.s0.mail
    ensures (forall t <- at :: goal(r.s0.mail[at[t]].id) == at[t].folder) <==>
            (forall t <- at' :: goal(r.s0.mail[at'[t]].id) == at'[t].folder)
  {
    assert (forall t <- at :: goal(r.s0.mail[at[t]].id) == at[t].folder) <==>
           (forall v <- at.Values :: goal(r.s0.mail[v].id) == v.folder);
    assert (forall t <- at' :: goal(r.s0.mail[at'[t]].id) == at'[t].folder) <==>
           (forall v <- at'.Values :: goal(r.s0.mail[v].id) == v.folder);
  }

  /** The newest of some copies in one folder. */
  lemma {:induction false} NewestOne(locs: set<Loc>) returns (top: Loc)
    requires locs != {} && forall x, y :: x in locs && y in locs && x.uid == y.uid ==> x == y
    ensures top in locs && forall y :: y in locs && y != top ==> y.uid < top.uid
  {
    top :| top in locs;
    if locs != {top} {
      var other := NewestOne(locs - {top});
      if top.uid < other.uid { top := other; }
    }
  }

  lemma {:induction false} NewestExists(locs: set<Loc>, k: nat) returns (top: set<Loc>)
    requires forall x, y :: x in locs && y in locs && x.uid == y.uid ==> x == y
    ensures Newest(locs, k, top)
  {
    if k == 0 || locs == {} {
      top := {};
    } else {
      var first := NewestOne(locs);
      var rest := NewestExists(locs - {first}, k - 1);
      top := rest + {first};
    }
  }

  /** There is a choice for undo to make, whatever the log and the server. */
  lemma {:induction false} CanChoose(d: Terms, s: Server, dst: Folder, keys: set<Key>) returns (chosen: map<Loc, Folder>)
    requires TermsOk(d) && keys <= OfFolder(d.wants, dst)
    ensures Picked(d.wants, d.quota, s, dst, chosen, keys)
  {
    chosen := map[];
    if keys != {} {
      var k :| k in keys;
      var rest := CanChoose(d, s, dst, keys - {k});
      var top := NewestExists(Copies(s, dst, k.id), d.quota[k]);
      chosen := rest + map l | l in top :: d.wants[k].source;
      OneMorePicked(d, s, dst, keys - {k}, k, rest, top, chosen);
    }
  }

  lemma OneMorePicked(d: Terms, s: Server, dst: Folder, keys: set<Key>, k: Key, rest: map<Loc, Folder>, top: set<Loc>,
      chosen: map<Loc, Folder>)
    requires d.quota.Keys == d.wants.Keys && keys <= d.wants.Keys && k in d.wants && k !in keys
    requires k.dst == dst && forall j <- keys :: j.dst == dst
    requires Picked(d.wants, d.quota, s, dst, rest, keys) && Newest(Copies(s, dst, k.id), d.quota[k], top)
    requires chosen == rest + map l | l in top :: d.wants[k].source
    ensures Picked(d.wants, d.quota, s, dst, chosen, keys + {k})
  {
    hide Newest, Copies, SentHome;
    SentMore(d, s, dst, keys, k, rest, top, chosen);
    forall j | j in keys + {k}
      ensures chosen.Keys * Copies(s, dst, j.id) == if j == k then top else rest.Keys * Copies(s, dst, j.id)
    {
      CopiesMore(d, s, dst, keys, k, rest, top, chosen.Keys, j);
    }
  }

  lemma SentMore(d: Terms, s: Server, dst: Folder, keys: set<Key>, k: Key, rest: map<Loc, Folder>, top: set<Loc>,
      chosen: map<Loc, Folder>)
    requires keys <= d.wants.Keys && k in d.wants && k in d.quota && k.dst == dst && Newest(Copies(s, dst, k.id), d.quota[k], top)
    requires SentHome(d.wants, s, dst, rest, keys) && chosen == rest + map l | l in top :: d.wants[k].source
    ensures SentHome(d.wants, s, dst, chosen, keys + {k}) && chosen.Keys == rest.Keys + top
  {
  }

  lemma CopiesMore(d: Terms, s: Server, dst: Folder, keys: set<Key>, k: Key, rest: map<Loc, Folder>, top: set<Loc>,
      all: set<Loc>, j: Key)
    requires keys <= d.wants.Keys && k in d.wants && k in d.quota && k !in keys && k.dst == dst && j.dst == dst && j in keys + {k}
    requires SentHome(d.wants, s, dst, rest, keys) && Newest(Copies(s, dst, k.id), d.quota[k], top)
    requires all == rest.Keys + top
    ensures all * Copies(s, dst, j.id) == if j == k then top else rest.Keys * Copies(s, dst, j.id)
  {
    assert top <= Copies(s, dst, k.id);
    if j != k {
      assert j.id != k.id;
      hide Newest;
      assert top * Copies(s, dst, j.id) == {};
    } else {
      NoneOfIt(d, s, dst, keys, k, rest);
      hide Newest, SentHome;
    }
  }

  lemma NoneOfIt(d: Terms, s: Server, dst: Folder, keys: set<Key>, k: Key, rest: map<Loc, Folder>)
    requires keys <= d.wants.Keys && k !in keys && k.dst == dst && SentHome(d.wants, s, dst, rest, keys)
    ensures rest.Keys * Copies(s, dst, k.id) == {}
  {
  }

  /** And every choice can be carried out. */
  lemma {:induction false} CanRestore(w: World, chosen: map<Loc, Folder>, todo: set<Loc>) returns (es: History)
    requires WorldOk(w) && todo <= chosen.Keys
    requires forall l <- todo :: l in w.server.mail && chosen[l] in w.server.next
    ensures Restoring(es, chosen) && LegalRun(w, es) && Acted(es) == todo
    ensures var v := Replay(w, es);
      && WorldOk(v) && v.server.next.Keys == w.server.next.Keys
      && forall l <- w.server.mail :: l !in todo ==> l in v.server.mail
  {
    es := Start;
    if todo != {} {
      var l :| l in todo;
      es := CanRestore(w, chosen, todo - {l});
      var v := Replay(w, es);
      var e := Moved(l, Loc(chosen[l], v.server.next[chosen[l]]));
      StepOk(v, e);
      es := Then(es, e);
    }
  }

  /** Undo is never stuck: whatever a crash or an interruption left, there is
      an undo that completes. */
  lemma UndoCanComplete(r: Run, w: World, at: map<Loc, Loc>, x: Site) returns (chosen: map<Loc, Folder>, es: History)
    requires WorldOk(w) && Placed(r, w.server, at) && LogOk(r, w.log) && r.trash != NOWHERE
    ensures Attempt(r, w, x, chosen, es, true)
  {
    hide LogOk, IntentsOf, Quotas, Newest, Due;
    var d := TermsAt(r, w, x);
    TermsAreOk(w, r.account, x.lower, x.special, x.unchecked);
    chosen := CanChoose(d, w.server, r.trash, OfFolder(d.wants, r.trash));
    forall l | l in chosen ensures l in w.server.mail && chosen[l] in w.server.next {
      ChosenInTrash(r, w, x, chosen, l);
      GoalExists(r, w, at, x, w.server.mail[l].id);
    }
    es := CanRestore(w, chosen, chosen.Keys);
  }

  lemma GoalExists(r: Run, w: World, at: map<Loc, Loc>, x: Site, id: string)
    requires Placed(r, w.server, at) && LogOk(r, w.log) && r.trash != NOWHERE
    ensures var d, k := TermsAt(r, w, x), Key(r.trash, id);
      k in d.wants ==> d.wants[k].source in w.server.next
  {
    hide LogOk, Goal, Due, WantsOf, Quotas;
    QuotaIsDue(r, w, x, id);
  }

  /** A crash of a delete run at a moment the write-ahead invariant holds: at any
      moment on a server with MOVE, also part way through a MOVE; between two
      batches on any other (Soundness.Sound). Halfway has the others. Any part of the log beyond its
      durable part is lost; then an undo completes, on either path. Trash holds
      exactly what it held before if and only if undo can tell the run's copies
      apart; and every mailbox its messages if and only if, besides, undo's folder
      for each message that moved, the one of the first line for it, is its own. */
  lemma UndoAtRest(hasMove: bool, r: Run, v: World, k: nat, x: Site, logs: History, picks: seq<Pick>)
    requires Inv(r, v) && v.synced <= k <= |v.log| && r.trash != NOWHERE
    requires var w := Crash(v, k);
      LegalRun(w, Told(logs, picks)) && Undone(hasMove, w, TermsAt(r, w, x), logs, picks, true)
    ensures var w := Crash(v, k);
      var at, s := w.came, Replay(w, Told(logs, picks)).server;
      && (TrashAsBefore(r, s) <==> forall id :: TellsApart(r, w, x, id))
      && (AsBefore(r, s) <==>
            && (forall id :: TellsApart(r, w, x, id))
            && forall t <- at :: at[t] in r.s0.mail && Goal(r, w.log)(r.s0.mail[at[t]].id) == at[t].folder)
  {
    hide Inv, Placed, Witnessed, AsBefore, TrashAsBefore, Attempt, Undone, TermsOf, TellsApart, Goal;
    CrashWitnessed(r, v, k);
    AllInTrash(r, v);
    var w := Crash(v, k);
    assert LogOk(r, w.log) && WorldOk(w) by { WitnessedLog(r, w.log, v.came.Values); }
    var chosen, es := UndoneIsAttempt(hasMove, r, w, x, logs, picks, true);
    CompleteUndo(r, w, v.came, x, chosen, es);
    TakenExist(r, v.server, v.came);
  }

  lemma WitnessedLog(r: Run, log: seq<Line>, moved: set<Loc>)
    requires Witnessed(r, log, moved)
    ensures LogOk(r, log)
  {
  }

  lemma AllInTrash(r: Run, w: World)
    requires Inv(r, w)
    ensures WorldOk(w) && Out(r, w.came) == w.came.Keys && forall t <- w.came :: t.folder == r.trash
  {
  }

  /** Undo tells everything apart after a crash if the log is clear, undo
      refuses none of its folders, and it can open those with something to
      check. */
  lemma ClearTellsApart(r: Run, v: World, k: nat, x: Site)
    requires Inv(r, v) && v.synced <= k <= |v.log|
    requires (forall id :: Clear(r, Crash(v, k).log, id)) && Permitted(r, Crash(v, k).log, x) && x.unchecked == {}
    ensures forall id :: TellsApart(r, Crash(v, k), x, id)
  {
    hide Inv, Placed, Witnessed, TellsApart, Clear, Permitted, Unmixed, Balanced;
    CrashWitnessed(r, v, k);
    AllInTrash(r, v);
    var w := Crash(v, k);
    forall id ensures TellsApart(r, w, x, id) {
      AllUnmixed(r, v.came, id);
      RecoverableDue(r, w, v.came, x, id);
      TellsApartBalances(r, w, v.came, x, id);
    }
  }

  lemma AllUnmixed(r: Run, at: map<Loc, Loc>, id: string)
    requires Out(r, at) == at.Keys
    ensures Unmixed(r, at, id)
  {
    assert forall t <- at :: t in Out(r, at);
    assert BackOf(r, at, id) == {};
  }
}
