/** Undo after a delete run that stopped at any moment, also inside a batch of
    COPY, STORE \Deleted and UID EXPUNGE, where a message can be both in its
    folder and in Trash. */
module Halfway {
  import opened Mailbox
  import opened Audit
  import opened Events
  import opened Moves
  import opened Uids
  import opened WriteAhead
  import opened Soundness
  import opened UndoPlan
  import opened Undo
  import opened UndoPolicy
  import opened Entitlement
  import opened Recovery

  /** What a crash at any moment of a run leaves, with any part of the log beyond
      its durable part lost: nothing is touched that the log does not name, what
      is gone has its own copy in Trash, and what is confirmed is gone. */
  ghost predicate Traced(r: Run, w: World) {
    && WorldOk(w) && LogOk(r, w.log) && Landed(r, w)
    && Spared(r, w, Intents(w.log)) && AllGone(r, w, Confirmed(w.log))
  }

  lemma CrashTraced(r: Run, v: World, k: nat)
    requires Ahead(r, v) && Landed(r, v) && v.synced <= k <= |v.log|
    ensures Traced(r, Crash(v, k))
  {
    var w := Crash(v, k);
    CrashLog(r, v, k);
    AheadParts(r, v);
    hide Ahead, Landed, Spared, Durable, Intents, Confirmed, LogOk, ServerOk;
    LandedSame(r, v, w);
    SparedSame(r, v, w, Durable(v), Intents(w.log));
  }

  lemma CrashLog(r: Run, v: World, k: nat)
    requires LogOk(r, v.log) && v.synced <= k <= |v.log|
    ensures var log := v.log[..k];
      LogOk(r, log) && Durable(v) <= Intents(log) && Confirmed(log) <= Confirmed(v.log)
  {
    DurableOk(r, v.log, k);
    ReadPrefix(v.log, k);
    var log := v.log[..k];
    assert log[..v.synced] == v.log[..v.synced];
    ReadPrefix(log, v.synced);
  }

  lemma AheadParts(r: Run, v: World)
    requires Ahead(r, v)
    ensures WorldOk(v) && LogOk(r, v.log) && Spared(r, v, Durable(v)) && AllGone(r, v, Confirmed(v.log))
  {
  }

  /** The messages with that Message-ID that are gone from their place. */
  ghost function GoneOf(r: Run, w: World, id: string): set<Loc> {
    set l | l in r.s0.mail && r.s0.mail[l].id == id && l !in w.server.mail
  }

  ghost function ArrivedOf(r: Run, w: World, id: string): set<Loc> {
    set t | t in w.server.mail && t in Arrivals(r, w) && w.server.mail[t].id == id
  }

  /** The messages that are in their place and have a copy in Trash. */
  ghost function Doubled(r: Run, w: World): set<Loc> {
    set l | l in r.s0.mail && l in w.server.mail && HasArrived(r, w, l)
  }

  ghost function DoubledOf(r: Run, w: World, id: string): set<Loc> {
    set l | l in r.s0.mail && l in Doubled(r, w) && r.s0.mail[l].id == id
  }

  /** What is where. */
  lemma WhatIsWhere(r: Run, w: World, l: Loc)
    requires Traced(r, w)
    ensures l in w.server.mail && l.folder != r.trash ==> l in r.s0.mail && w.server.mail[l].id == r.s0.mail[l].id
    ensures l in r.s0.mail && l.folder == r.trash ==> l in w.server.mail && w.server.mail[l] == r.s0.mail[l]
    ensures l in r.s0.mail && l !in w.server.mail ==>
              l in Intents(w.log) && HasArrived(r, w, l) && w.server.mail[w.went[l]] == r.s0.mail[l]
    ensures l in r.s0.mail && l !in w.server.mail ==> l.folder != r.trash
  {
    if l in r.s0.mail {
      assert Safe(Origin(r), w, r.trash, Intents(w.log), l);
      if l in Intents(w.log) { NamedOriginal(r, w.log, l); }
    }
  }

  /** The copies of a message in Trash: those it had, all older than those that
      have arrived. */
  lemma TrashHolds(r: Run, w: World, id: string)
    requires Traced(r, w)
    ensures Copies(w.server, r.trash, id) == Copies(r.s0, r.trash, id) + ArrivedOf(r, w, id)
    ensures Copies(r.s0, r.trash, id) !! ArrivedOf(r, w, id)
    ensures forall x, y :: x in Copies(r.s0, r.trash, id) && y in ArrivedOf(r, w, id) ==> x.uid < y.uid
  {
    forall l ensures l in Copies(w.server, r.trash, id) <==> l in Copies(r.s0, r.trash, id) || l in ArrivedOf(r, w, id) {
      WhatIsWhere(r, w, l);
    }
  }

  /** Where each arrival came from. */
  ghost function Origins(r: Run, w: World): map<Loc, Loc> {
    map t | t in Arrivals(r, w) && t in w.came :: w.came[t]
  }

  lemma OriginsApart(r: Run, w: World)
    requires Landed(r, w)
    ensures Origins(r, w).Keys == Arrivals(r, w) && Injective(Origins(r, w))
    ensures forall t <- Arrivals(r, w) :: t in w.server.mail && Sourced(r, w, t) && Origins(r, w)[t] == w.came[t]
  {
    assert forall t <- Arrivals(r, w) :: Sourced(r, w, t);
  }

  /** As many of a message have arrived as are gone or doubled. */
  lemma ArrivedCount(r: Run, w: World, id: string)
    requires Traced(r, w)
    ensures |ArrivedOf(r, w, id)| == |GoneOf(r, w, id)| + |DoubledOf(r, w, id)|
  {
    var at, ts := Origins(r, w), ArrivedOf(r, w, id);
    OriginsApart(r, w);
    ImageCount(at, ts);
    ArrivedImage(r, w, id);
    assert GoneOf(r, w, id) !! DoubledOf(r, w, id);
  }

  lemma ArrivedImage(r: Run, w: World, id: string)
    requires Traced(r, w) && Origins(r, w).Keys == Arrivals(r, w)
    requires forall t <- Arrivals(r, w) :: t in w.server.mail && Sourced(r, w, t) && Origins(r, w)[t] == w.came[t]
    ensures Image(Origins(r, w), ArrivedOf(r, w, id)) == GoneOf(r, w, id) + DoubledOf(r, w, id)
  {
    var at, ts := Origins(r, w), ArrivedOf(r, w, id);
    hide Traced, Origins;
    forall l ensures l in Image(at, ts) <==> l in GoneOf(r, w, id) + DoubledOf(r, w, id) {
      WhatIsWhere(r, w, l);
      if l in GoneOf(r, w, id) + DoubledOf(r, w, id) { assert w.went[l] in ts && at[w.went[l]] == l; }
    }
  }

  /** Undo is due as many copies of a message as have arrived, or more and there
      are no others. */
  ghost predicate Evens(r: Run, w: World, x: Site, id: string) {
    var n, m := Due(r, w, x, id), |ArrivedOf(r, w, id)|;
    n == m || (m < n && Copies(r.s0, r.trash, id) == {})
  }

  /** How many copies of a message undo takes. */
  ghost function Taken(r: Run, w: World, x: Site, id: string): int {
    var n, m := Due(r, w, x, id), |Copies(w.server, r.trash, id)|;
    if n <= m then n else m
  }

  lemma TakesNewest(r: Run, w: World, x: Site, chosen: map<Loc, Folder>, id: string)
    requires Traced(r, w) && Chooses(r, w, x, chosen) && r.trash != NOWHERE
    ensures var mine := chosen.Keys * Copies(w.server, r.trash, id);
      |mine| == Taken(r, w, x, id) && (mine == ArrivedOf(r, w, id) <==> Evens(r, w, x, id))
  {
    var d, k := TermsAt(r, w, x), Key(r.trash, id);
    var mine := chosen.Keys * Copies(w.server, r.trash, id);
    TrashHolds(r, w, id);
    assert LogOk(r, w.log);
    hide Traced, LogOk, TermsOf, Due, ArrivedOf, Copies;
    QuotaIsDue(r, w, x, id);
    if k in d.wants {
      WantedCopies(r, w, d, chosen, k);
      NewestSplit(Copies(r.s0, r.trash, id), ArrivedOf(r, w, id), d.quota[k], mine);
    } else {
      UnwantedCopies(r, w, d, chosen, k);
    }
  }

  /** Undo chooses exactly what has arrived if and only if it is due that of
      every Message-ID. */
  lemma TakesArrivals(r: Run, w: World, x: Site, chosen: map<Loc, Folder>)
    requires Traced(r, w) && Chooses(r, w, x, chosen) && r.trash != NOWHERE
    ensures chosen.Keys == Arrivals(r, w) <==> forall id :: Evens(r, w, x, id)
  {
    hide Traced, Chooses, Evens;
    forall id ensures chosen.Keys * Copies(w.server, r.trash, id) == ArrivedOf(r, w, id) <==> Evens(r, w, x, id) {
      TakesNewest(r, w, x, chosen, id);
    }
    forall l | l in chosen ensures l in w.server.mail && l.folder == r.trash { ChosenInTrash(r, w, x, chosen, l); }
    if chosen.Keys == Arrivals(r, w) {
      forall id ensures Evens(r, w, x, id) {
        assert Arrivals(r, w) * Copies(w.server, r.trash, id) == ArrivedOf(r, w, id);
      }
    }
    if forall id :: Evens(r, w, x, id) {
      forall l ensures l in chosen <==> l in Arrivals(r, w) {
        if l in w.server.mail && l.folder == r.trash {
          var id := w.server.mail[l].id;
          assert Evens(r, w, x, id);
          assert l in chosen.Keys * Copies(w.server, r.trash, id) <==> l in ArrivedOf(r, w, id);
        }
      }
    }
  }

  /** A completed undo leaves Trash as before the run if and only if of every
      message it was due what had arrived. */
  lemma TrashEvens(r: Run, w: World, x: Site, chosen: map<Loc, Folder>, es: History)
    requires Traced(r, w) && r.trash != NOWHERE && Attempt(r, w, x, chosen, es, true)
    ensures TrashAsBefore(r, Replay(w, es).server) <==> forall id :: Evens(r, w, x, id)
    ensures r.trash !in chosen.Values && forall l <- chosen :: l in w.server.mail && l.folder == r.trash
  {
    TakesArrivals(r, w, x, chosen);
    ChosenElsewhere(r, w, x, chosen);
    forall l | l in chosen ensures l in w.server.mail && l.folder == r.trash { ChosenInTrash(r, w, x, chosen, l); }
    hide Chooses, Evens, Traced;
    TrashLess(r, w, es, chosen);
  }

  lemma TrashLess(r: Run, w: World, es: History, chosen: map<Loc, Folder>)
    requires Traced(r, w) && Restoring(es, chosen) && LegalRun(w, es) && r.trash !in chosen.Values
    requires Acted(es) == chosen.Keys && forall l <- chosen :: l in w.server.mail && l.folder == r.trash
    ensures TrashAsBefore(r, Replay(w, es).server) <==> chosen.Keys == Arrivals(r, w)
  {
    TrashLeft(r, w, es, chosen);
    TrashHeld(r, w);
    hide Traced, LegalRun, Restoring, Replay;
    TrashCompared(r, w, Replay(w, es).server, chosen.Keys);
  }

  /** Trash holds what it held and what has arrived. */
  ghost predicate TrashGrown(r: Run, w: World) {
    forall l: Loc :: l.folder == r.trash ==>
      && (l in w.server.mail <==> l in Arrivals(r, w) || l in r.s0.mail)
      && (l in w.server.mail && l in r.s0.mail ==> w.server.mail[l] == r.s0.mail[l])
  }

  lemma TrashHeld(r: Run, w: World)
    requires Traced(r, w)
    ensures TrashGrown(r, w)
  {
    hide Traced;
    forall l: Loc | l.folder == r.trash
      ensures l in w.server.mail <==> l in Arrivals(r, w) || l in r.s0.mail
      ensures l in w.server.mail && l in r.s0.mail ==> w.server.mail[l] == r.s0.mail[l]
    {
      WhatIsWhere(r, w, l);
    }
  }

  lemma TrashCompared(r: Run, w: World, s: Server, out: set<Loc>)
    requires TrashGrown(r, w) && forall l <- out :: l in w.server.mail && l.folder == r.trash
    requires forall l: Loc :: l.folder == r.trash ==>
               && (l in s.mail <==> l in w.server.mail && l !in out)
               && (l in s.mail ==> s.mail[l] == w.server.mail[l])
    ensures TrashAsBefore(r, s) <==> out == Arrivals(r, w)
  {
    if TrashAsBefore(r, s) {
      assert forall l <- out :: l in Arrivals(r, w);
      assert forall l <- Arrivals(r, w) :: l in out;
    }
  }

  /** Where folder f holds messages that are ok. */
  ghost function Held(s: Server, f: Folder, ok: Mail -> bool): set<Loc> {
    set l | l in s.mail && l.folder == f && ok(s.mail[l])
  }

  /** The messages among those restored that went to f and are ok. */
  ghost function Returning(w: World, locs: set<Loc>, chosen: map<Loc, Folder>, f: Folder, ok: Mail -> bool): set<Loc> {
    set l | l in locs && l in chosen && l in w.server.mail && chosen[l] == f && ok(w.server.mail[l])
  }

  /** A folder outside Trash holds what it held and what came back to it. */
  lemma {:induction false} RestoredHeld(r: Run, w: World, es: History, chosen: map<Loc, Folder>, f: Folder, ok: Mail -> bool)
    requires WorldOk(w) && Restoring(es, chosen) && LegalRun(w, es) && r.trash !in chosen.Values && f != r.trash
    requires forall l <- chosen :: l in w.server.mail && l.folder == r.trash
    ensures WorldOk(Replay(w, es))
    ensures |Held(Replay(w, es).server, f, ok)| == |Held(w.server, f, ok)| + |Returning(w, Acted(es), chosen, f, ok)|
  {
    if es.Then? {
      hide Held, Returning, WorldOk, Legal, ServerStep;
      RestoredHeld(r, w, es.past, chosen, f, ok);
      var v, e := Replay(w, es.past), es.e;
      StepOk(v, e);
      if e.Moved? {
        assert v.server.mail[e.at] == w.server.mail[e.at] && e.at in v.server.mail by { TrashLeft(r, w, es.past, chosen); }
        ReturningMore(w, Acted(es.past), e.at, chosen, f, ok);
        HeldMoved(v, e, f, ok);
      } else {
        assert Acted(es) == Acted(es.past) && Replay(w, es).server == v.server;
      }
    } else {
      assert Returning(w, Acted(es), chosen, f, ok) == {};
    }
  }

  lemma ReturningMore(w: World, locs: set<Loc>, l: Loc, chosen: map<Loc, Folder>, f: Folder, ok: Mail -> bool)
    requires l !in locs && l in chosen && l in w.server.mail
    ensures |Returning(w, locs + {l}, chosen, f, ok)| ==
            |Returning(w, locs, chosen, f, ok)| + if chosen[l] == f && ok(w.server.mail[l]) then 1 else 0
  {
    if chosen[l] == f && ok(w.server.mail[l]) {
      assert Returning(w, locs + {l}, chosen, f, ok) == Returning(w, locs, chosen, f, ok) + {l};
    } else {
      assert Returning(w, locs + {l}, chosen, f, ok) == Returning(w, locs, chosen, f, ok);
    }
  }

  lemma MovedMail(v: World, e: Event)
    requires WorldOk(v) && e.Moved? && Legal(v.server, e)
    ensures e.to !in v.server.mail && Step(v, e).server.mail == (v.server.mail - {e.at})[e.to := v.server.mail[e.at]]
  {
  }

  lemma HeldPut(s: Server, t: Server, at: Loc, to: Loc, f: Folder, ok: Mail -> bool)
    requires at in s.mail && at.folder != f && to !in s.mail && t.mail == (s.mail - {at})[to := s.mail[at]]
    ensures |Held(t, f, ok)| == |Held(s, f, ok)| + if to.folder == f && ok(s.mail[at]) then 1 else 0
  {
    if to.folder == f && ok(s.mail[at]) {
      assert Held(t, f, ok) == Held(s, f, ok) + {to} && to !in Held(s, f, ok);
    } else {
      assert Held(t, f, ok) == Held(s, f, ok);
    }
  }

  lemma HeldMoved(v: World, e: Event, f: Folder, ok: Mail -> bool)
    requires WorldOk(v) && e.Moved? && Legal(v.server, e) && e.at.folder != f
    ensures |Held(Step(v, e).server, f, ok)| == |Held(v.server, f, ok)| + if e.to.folder == f
        && ok(v.server.mail[e.at]) then 1 else 0
  {
    var s, m := v.server, v.server.mail[e.at];
    var t := Step(v, e).server;
    MovedMail(v, e);
    hide WorldOk, Legal, ServerStep, Step;
    HeldPut(s, t, e.at, e.to, f, ok);
  }

  ghost function GoneIn(r: Run, w: World, f: Folder, id: string): set<Loc> {
    set l | l in GoneOf(r, w, id) && l.folder == f
  }

  lemma FolderCount(r: Run, w: World, f: Folder, id: string)
    requires Traced(r, w) && f != r.trash
    ensures |Copies(r.s0, f, id)| == |Copies(w.server, f, id)| + |GoneIn(r, w, f, id)|
  {
    forall l ensures l in Copies(r.s0, f, id) <==> l in Copies(w.server, f, id) + GoneIn(r, w, f, id) {
      WhatIsWhere(r, w, l);
    }
    assert Copies(w.server, f, id) !! GoneIn(r, w, f, id);
    assert Copies(r.s0, f, id) == Copies(w.server, f, id) + GoneIn(r, w, f, id);
  }

  ghost function ReturningId(w: World, chosen: map<Loc, Folder>, f: Folder, id: string): set<Loc> {
    set l | l in chosen && l in w.server.mail && chosen[l] == f && w.server.mail[l].id == id
  }

  lemma CountRestored(r: Run, w: World, es: History, chosen: map<Loc, Folder>, f: Folder, id: string)
    requires WorldOk(w) && Restoring(es, chosen) && LegalRun(w, es) && r.trash !in chosen.Values && f != r.trash
    requires Acted(es) == chosen.Keys && forall l <- chosen :: l in w.server.mail && l.folder == r.trash
    ensures |Copies(Replay(w, es).server, f, id)| == |Copies(w.server, f, id)| + |ReturningId(w, chosen, f, id)|
  {
    hide Replay, Restoring, LegalRun, WorldOk;
    RestoredHeld(r, w, es, chosen, f, HasId(id));
    HeldById(w.server, f, id);
    HeldById(Replay(w, es).server, f, id);
    ReturningById(w, chosen, f, id);
  }

  function HasId(id: string): Mail -> bool {
    (m: Mail) => m.id == id
  }

  lemma HeldById(s: Server, f: Folder, id: string)
    ensures Held(s, f, HasId(id)) == Copies(s, f, id)
  {
  }

  lemma ReturningById(w: World, chosen: map<Loc, Folder>, f: Folder, id: string)
    ensures Returning(w, chosen.Keys, chosen, f, HasId(id)) == ReturningId(w, chosen, f, id)
  {
  }

  /** What a completed undo brings back of one message to one folder. */
  lemma FolderRestored(r: Run, w: World, x: Site, chosen: map<Loc, Folder>, es: History, f: Folder, id: string)
    requires Traced(r, w) && r.trash != NOWHERE && Attempt(r, w, x, chosen, es, true) && f != r.trash
    ensures |Copies(Replay(w, es).server, f, id)| ==
            |Copies(w.server, f, id)| + if f == Goal(r, w.log)(id) then Taken(r, w, x, id) else 0
  {
    assert WorldOk(w);
    hide Traced, Chooses, Evens, Taken, LegalRun, Restoring, Goal, TrashAsBefore, WorldOk, Copies, ReturningId, Replay;
    TrashEvens(r, w, x, chosen, es);
    TakesNewest(r, w, x, chosen, id);
    CountRestored(r, w, es, chosen, f, id);
    BackToGoal(r, w, x, chosen, f, id);
  }

  lemma BackToGoal(r: Run, w: World, x: Site, chosen: map<Loc, Folder>, f: Folder, id: string)
    requires Chooses(r, w, x, chosen)
    ensures ReturningId(w, chosen, f, id) ==
            if f == Goal(r, w.log)(id) then chosen.Keys * Copies(w.server, r.trash, id) else {}
  {
    forall l | l in chosen
      ensures l in w.server.mail && l.folder == r.trash && chosen[l] == Goal(r, w.log)(w.server.mail[l].id)
    {
      ChosenGoal(r, w, x, chosen, l);
      ChosenInTrash(r, w, x, chosen, l);
    }
    hide Chooses, Goal;
  }

  /** Every folder outside Trash holds as many messages with that Message-ID as
      before the run. */
  ghost predicate KeepsCount(r: Run, s: Server, id: string) {
    forall f :: f != r.trash ==> |Copies(s, f, id)| == |Copies(r.s0, f, id)|
  }

  /** Undo takes as many copies of a message as are gone, and those are gone from
      the folder it restores to. */
  ghost predicate Repaid(r: Run, w: World, x: Site, id: string) {
    && Taken(r, w, x, id) == |GoneOf(r, w, id)|
    && forall l <- GoneOf(r, w, id) :: l.folder == Goal(r, w.log)(id)
  }

  lemma CountsRepaid(r: Run, w: World, x: Site, chosen: map<Loc, Folder>, es: History, id: string)
    requires Traced(r, w) && r.trash != NOWHERE && Attempt(r, w, x, chosen, es, true)
    ensures KeepsCount(r, Replay(w, es).server, id) <==> Repaid(r, w, x, id)
  {
    hide Traced, Chooses, LegalRun, Restoring, Taken, Goal, Copies, Replay, Evens, GoneOf, GoneIn;
    GoneOutside(r, w, id);
    NoneToTrash(r, w, x, chosen, id);
    TakesNewest(r, w, x, chosen, id);
    var s, goal := Replay(w, es).server, Goal(r, w.log)(id);
    forall f | f != r.trash
      ensures |Copies(s, f, id)| == |Copies(r.s0, f, id)| <==>
              |GoneIn(r, w, f, id)| == if f == goal then Taken(r, w, x, id) else 0
    {
      FolderCount(r, w, f, id);
      FolderRestored(r, w, x, chosen, es, f, id);
    }
    AllFromGoal(r, w, id, goal, Taken(r, w, x, id));
  }

  lemma AllFromGoal(r: Run, w: World, id: string, goal: Folder, n: int)
    requires (forall l <- GoneOf(r, w, id) :: l.folder != r.trash) && (goal == r.trash ==> n == 0) && 0 <= n
    ensures (forall f :: f != r.trash ==> |GoneIn(r, w, f, id)| == if f == goal then n else 0) <==>
            n == |GoneOf(r, w, id)| && forall l <- GoneOf(r, w, id) :: l.folder == goal
  {
    hide GoneOf;
    var gone := GoneOf(r, w, id);
    if n == |gone| && forall l <- gone :: l.folder == goal {
      forall f | f != r.trash ensures |GoneIn(r, w, f, id)| == if f == goal then n else 0 {
        assert GoneIn(r, w, f, id) == if f == goal then gone else {};
      }
    }
    if forall f :: f != r.trash ==> |GoneIn(r, w, f, id)| == if f == goal then n else 0 {
      forall l | l in gone ensures l.folder == goal {
        assert l in GoneIn(r, w, l.folder, id);
      }
      assert GoneIn(r, w, goal, id) == gone;
      assert goal == r.trash ==> gone == {};
    }
  }

  lemma GoneOutside(r: Run, w: World, id: string)
    requires Traced(r, w)
    ensures forall l <- GoneOf(r, w, id) :: l.folder != r.trash
  {
    forall l | l in GoneOf(r, w, id) ensures l.folder != r.trash { WhatIsWhere(r, w, l); }
  }

  /** Undo takes no message it would restore to Trash. */
  lemma NoneToTrash(r: Run, w: World, x: Site, chosen: map<Loc, Folder>, id: string)
    requires Traced(r, w) && r.trash != NOWHERE && Chooses(r, w, x, chosen)
    ensures Goal(r, w.log)(id) == r.trash ==> Taken(r, w, x, id) == 0
  {
    TakesNewest(r, w, x, chosen, id);
    ChosenElsewhere(r, w, x, chosen);
    var mine := chosen.Keys * Copies(w.server, r.trash, id);
    if l :| l in mine { ChosenGoal(r, w, x, chosen, l); }
  }

  /** Messages that are one of ms. */
  lemma {:induction false} MailsCount(s: Server, t: Server, f: Folder, ms: set<Mail>)
    requires SameMail(s, t, f)
    ensures |Held(s, f, (m: Mail) => m in ms)| == |Held(t, f, (m: Mail) => m in ms)|
  {
    if ms == {} {
      assert Held(s, f, (m: Mail) => m in ms) == {} == Held(t, f, (m: Mail) => m in ms);
    } else {
      var one :| one in ms;
      MailsCount(s, t, f, ms - {one});
      OneMail(s, f, ms, one);
      OneMail(t, f, ms, one);
    }
  }

  lemma OneMail(s: Server, f: Folder, ms: set<Mail>, one: Mail)
    requires one in ms
    ensures |Held(s, f, (m: Mail) => m in ms)| ==
            |Held(s, f, (m: Mail) => m in ms - {one})| + |Instances(s, f, one)|
  {
    assert Held(s, f, (m: Mail) => m in ms) == Held(s, f, (m: Mail) => m in ms - {one}) + Instances(s, f, one);
  }

  lemma SameCounts(s: Server, t: Server, f: Folder, id: string)
    requires SameMail(s, t, f)
    ensures |Copies(s, f, id)| == |Copies(t, f, id)|
  {
    var a := set l | l in s.mail && s.mail[l].id == id :: s.mail[l];
    var b := set l | l in t.mail && t.mail[l].id == id :: t.mail[l];
    MailsCount(s, t, f, a + b);
    assert Held(s, f, (m: Mail) => m in a + b) == Copies(s, f, id);
    assert Held(t, f, (m: Mail) => m in a + b) == Copies(t, f, id);
  }

  /** With no message doubled, the server is the one the run started from but for
      the messages that are gone, which are in Trash. */
  lemma NeatlyPlaced(r: Run, w: World)
    requires Traced(r, w) && Doubled(r, w) == {}
    ensures var at := Origins(r, w);
      && Placed(r, w.server, at) && Witnessed(r, w.log, at.Values) && Out(r, at) == at.Keys
      && at.Values == set l | l in r.s0.mail && l !in w.server.mail
  {
    hide Traced;
    OriginsGone(r, w);
    NeatMail(r, w);
    var at := Origins(r, w);
    OriginsElsewhere(r, w);
    forall l | l in at.Values ensures l in Intents(w.log) { WhatIsWhere(r, w, l); }
    NeatWitness(r, w, at.Values);
  }

  lemma OriginsGone(r: Run, w: World)
    requires Traced(r, w) && Doubled(r, w) == {}
    ensures forall l :: l in Origins(r, w).Values <==> l in r.s0.mail && l !in w.server.mail
  {
    var at := Origins(r, w);
    OriginsApart(r, w);
    hide Traced, Sourced;
    forall l ensures l in at.Values <==> l in r.s0.mail && l !in w.server.mail {
      WhatIsWhere(r, w, l);
      if l in r.s0.mail && l !in w.server.mail { assert at[w.went[l]] == l; }
      if l in at.Values {
        TracedLanded(r, w);
        ArrivedFrom(r, w, l);
        assert l !in Doubled(r, w);
      }
    }
  }

  lemma TracedLanded(r: Run, w: World)
    requires Traced(r, w)
    ensures Landed(r, w)
  {
  }

  lemma OriginsElsewhere(r: Run, w: World)
    requires Traced(r, w)
    ensures var at := Origins(r, w); Elsewhere(r, at) && Injective(at) && Out(r, at) == at.Keys
    ensures Grown(r, w.server) && ServerOk(w.server)
  {
    OriginsApart(r, w);
    hide Spared, AllGone, LogOk, HasArrived, ServerOk;
  }

  lemma NeatWitness(r: Run, w: World, moved: set<Loc>)
    requires Traced(r, w) && moved <= Intents(w.log) && forall l :: l in moved <==> l in r.s0.mail && l !in w.server.mail
    ensures Witnessed(r, w.log, moved)
  {
    hide Landed, Spared, LogOk, Confirmed, Intents;
  }

  /** The message an arrival came from has gone, or is doubled. */
  lemma ArrivedFrom(r: Run, w: World, l: Loc)
    requires Landed(r, w) && l in Origins(r, w).Values
    ensures Original(r, l) && HasArrived(r, w, l)
  {
    var t :| t in Origins(r, w) && Origins(r, w)[t] == l;
    assert Sourced(r, w, t);
  }

  lemma NeatMail(r: Run, w: World)
    requires Traced(r, w) && Doubled(r, w) == {}
    requires forall l :: l in Origins(r, w).Values <==> l in r.s0.mail && l !in w.server.mail
    ensures w.server.mail == Displace(r.s0, Origins(r, w))
  {
    var at := Origins(r, w);
    OriginsApart(r, w);
    var d := Displace(r.s0, at);
    forall l ensures l in w.server.mail <==> l in d
      ensures l in w.server.mail && l in d ==> w.server.mail[l] == d[l]
    {
      WhatIsWhere(r, w, l);
      if l in at {
        assert Sourced(r, w, l) && at[l] in at.Values;
        WhatIsWhere(r, w, at[l]);
      } else if l in r.s0.mail && l in w.server.mail {
        assert l !in Doubled(r, w);
      }
    }
  }

  /** If every mailbox is as before, no message was doubled. */
  lemma AsBeforeIsNeat(r: Run, w: World, x: Site, chosen: map<Loc, Folder>, es: History)
    requires Traced(r, w) && r.trash != NOWHERE && Attempt(r, w, x, chosen, es, true)
    requires AsBefore(r, Replay(w, es).server)
    ensures Doubled(r, w) == {}
  {
    hide Traced, Chooses, LegalRun, Restoring, Replay, Evens, Copies, HasArrived, Taken, GoneOf, ArrivedOf;
    TrashEvens(r, w, x, chosen, es);
    forall l | l in Doubled(r, w) ensures l in r.s0.mail && l in DoubledOf(r, w, r.s0.mail[l].id) {
    }
    hide Doubled, DoubledOf;
    forall id ensures DoubledOf(r, w, id) == {} {
      forall f ensures |Copies(Replay(w, es).server, f, id)| == |Copies(r.s0, f, id)| {
        SameCounts(r.s0, Replay(w, es).server, f, id);
      }
      CountsRepaid(r, w, x, chosen, es, id);
      TakesNewest(r, w, x, chosen, id);
      ArrivedCount(r, w, id);
    }
  }

  /** A crash of a delete run at any moment, on either path, part way through any
      command; any part of the log beyond its durable part is lost; then an undo
      completes. Trash holds exactly what it held before if and only if undo was
      due of every message as many copies as had arrived, or more and there were
      no others. As many of a message are in every other folder as before if and
      only if undo took as many as were gone, all from the folder of the first
      line for it. And every mailbox holds what it held if and only if no message
      was in its folder and copied, undo can tell the run's copies apart, and the
      folder of the first line for each message gone is its own. */
  lemma UndoAfterCrash(hasMove: bool, r: Run, v: World, k: nat, x: Site, logs: History, picks: seq<Pick>)
    requires Ahead(r, v) && Landed(r, v) && v.synced <= k <= |v.log| && r.trash != NOWHERE
    requires var w := Crash(v, k);
      LegalRun(w, Told(logs, picks)) && Undone(hasMove, w, TermsAt(r, w, x), logs, picks, true)
    ensures var w := Crash(v, k);
      var s := Replay(w, Told(logs, picks)).server;
      && (TrashAsBefore(r, s) <==> forall id :: Evens(r, w, x, id))
      && (forall id :: KeepsCount(r, s, id) <==> Repaid(r, w, x, id))
      && (AsBefore(r, s) <==>
            && Doubled(r, w) == {} && (forall id :: TellsApart(r, w, x, id))
            && forall l <- r.s0.mail :: l !in w.server.mail ==> Goal(r, w.log)(r.s0.mail[l].id) == l.folder)
  {
    var w := Crash(v, k);
    CrashTraced(r, v, k);
    assert LogOk(r, w.log);
    hide Ahead, Landed, Traced, Undone, TermsOf, LogOk, TellsApart, Evens, Repaid, KeepsCount, TrashAsBefore,
        AsBefore, Attempt, Goal, Doubled;
    var chosen, es := UndoneIsAttempt(hasMove, r, w, x, logs, picks, true);
    CompletedAfter(r, w, x, chosen, es);
  }

  lemma CompletedAfter(r: Run, w: World, x: Site, chosen: map<Loc, Folder>, es: History)
    requires Traced(r, w) && r.trash != NOWHERE && Attempt(r, w, x, chosen, es, true)
    ensures var s := Replay(w, es).server;
      && (TrashAsBefore(r, s) <==> forall id :: Evens(r, w, x, id))
      && (forall id :: KeepsCount(r, s, id) <==> Repaid(r, w, x, id))
      && (AsBefore(r, s) <==>
            && Doubled(r, w) == {} && (forall id :: TellsApart(r, w, x, id))
            && forall l <- r.s0.mail :: l !in w.server.mail ==> Goal(r, w.log)(r.s0.mail[l].id) == l.folder)
  {
    assert WorldOk(w);
    hide Traced, Attempt, TellsApart, Evens, Repaid, KeepsCount, TrashAsBefore, AsBefore, Goal, Doubled, Replay, Placed,
      Witnessed, WorldOk;
    TrashEvens(r, w, x, chosen, es);
    forall id ensures KeepsCount(r, Replay(w, es).server, id) <==> Repaid(r, w, x, id) {
      CountsRepaid(r, w, x, chosen, es, id);
    }
    if AsBefore(r, Replay(w, es).server) { AsBeforeIsNeat(r, w, x, chosen, es); }
    if Doubled(r, w) == {} {
      NeatlyPlaced(r, w);
      CompleteUndo(r, w, Origins(r, w), x, chosen, es);
      GoalsOwn(r, w, Origins(r, w), Goal(r, w.log));
    }
  }

  lemma GoalsOwn(r: Run, w: World, at: map<Loc, Loc>, goal: string -> Folder)
    requires at.Values == set l | l in r.s0.mail && l !in w.server.mail
    ensures (forall t <- at :: at[t] in r.s0.mail) &&
            ((forall t <- at :: goal(r.s0.mail[at[t]].id) == at[t].folder) <==>
             forall l <- r.s0.mail :: l !in w.server.mail ==> goal(r.s0.mail[l].id) == l.folder)
  {
    assert forall t <- at :: at[t] in at.Values;
    if forall t <- at :: goal(r.s0.mail[at[t]].id) == at[t].folder {
      forall l | l in r.s0.mail && l !in w.server.mail ensures goal(r.s0.mail[l].id) == l.folder {
        assert l in at.Values;
        var t :| t in at && at[t] == l;
      }
    }
  }

  /** With no message doubled, undo is due what has arrived if and only if it can
      tell the run's copies apart. */
  lemma NeatEvens(r: Run, w: World, x: Site, id: string)
    requires Traced(r, w) && Doubled(r, w) == {}
    ensures Evens(r, w, x, id) <==> TellsApart(r, w, x, id)
  {
    var at := Origins(r, w);
    NeatlyPlaced(r, w);
    TellsApartBalances(r, w, at, x, id);
    forall t ensures t in OutOf(r, at, id) <==> t in ArrivedOf(r, w, id) {
      NowAt(r, w.server, at, t);
      OriginsApart(r, w);
    }
    assert OutOf(r, at, id) == ArrivedOf(r, w, id);
    hide Traced, Placed, Witnessed, TellsApart, OutOf, ArrivedOf, Due, Copies;
  }

  /** Between two batches, and at any moment with MOVE, no message is doubled. */
  lemma RestIsNeat(r: Run, w: World)
    requires Inv(r, w)
    ensures Doubled(r, w) == {}
  {
    CameGone(r, w);
    forall l | HasArrived(r, w, l) ensures l in w.came.Values {
      assert w.came[w.went[l]] == l;
    }
  }

  /** In a clear log undo sees the recorded messages that are in their place, if
      it can look. */
  lemma SeenIsHere(r: Run, w: World, x: Site, id: string)
    requires Traced(r, w) && Clear(r, w.log, id) && r.trash != NOWHERE && Goal(r, w.log)(id) !in x.unchecked
    ensures Seen(r, w, x, id) == Here(r, w, id)
  {
    assert LogOk(r, w.log) && AllGone(r, w, Confirmed(w.log));
    hide Traced, LogOk, Goal, Holding, Confirmed, Intents;
    QuotaIsDue(r, w, x, id);
    var all, src := IntentsOf(r, w.log, id), Goal(r, w.log)(id);
    if OneFolder(all) {
      forall l | l in all ensures l.uid in Holding(w.server, src, id) <==> l in w.server.mail {
        HeldThere(r, w, id, l, src);
      }
    }
  }

  lemma HeldThere(r: Run, w: World, id: string, l: Loc, src: Folder)
    requires Traced(r, w) && l in IntentsOf(r, w.log, id) && l.folder == src
    ensures l.uid in Holding(w.server, src, id) <==> l in w.server.mail
  {
    NamedOriginal(r, w.log, l);
    WhatIsWhere(r, w, l);
    if l in w.server.mail { assert l in Copies(w.server, src, id); }
    if l.uid in Holding(w.server, src, id) {
      var y :| y in Copies(w.server, src, id) && y.uid == l.uid;
      assert y == l;
    }
  }

  /** From a clear log that undo refuses nothing of, and with sources that open,
      it is due exactly as many copies as are gone. */
  lemma ClearDue(r: Run, w: World, x: Site, id: string)
    requires Traced(r, w) && Clear(r, w.log, id) && Permitted(r, w.log, x) && x.unchecked == {}
    ensures Due(r, w, x, id) == |GoneOf(r, w, id)|
  {
    assert LogOk(r, w.log) && r.trash != NOWHERE;
    hide Traced, LogOk, Goal, Permitted, IntentsOf, Clear, Seen, RefusesGoal, GoneOf, Here;
    RecordedCount(r, w, id);
    if IntentsOf(r, w.log, id) == {} {
      QuotaIsDue(r, w, x, id);
    } else {
      NotRefused(r, w, x, id);
      SeenIsHere(r, w, x, id);
    }
  }

  /** What was recorded of a message is gone or in its place. */
  lemma RecordedCount(r: Run, w: World, id: string)
    requires Traced(r, w)
    ensures |IntentsOf(r, w.log, id)| == |GoneOf(r, w, id)| + |Here(r, w, id)|
  {
    forall l ensures l in GoneOf(r, w, id) <==> l in IntentsOf(r, w.log, id) && l !in Here(r, w, id) {
      WhatIsWhere(r, w, l);
    }
    hide Traced, IntentsOf, GoneOf;
    assert IntentsOf(r, w.log, id) == GoneOf(r, w, id) + Here(r, w, id);
    assert GoneOf(r, w, id) !! Here(r, w, id);
  }

  /** Then Trash comes back as it was if and only if no message is both in its
      folder and copied; and whether or not, of every message that was recorded
      from one folder each folder outside Trash holds as many as before. */
  lemma ClearEvens(r: Run, w: World, x: Site)
    requires Traced(r, w) && (forall id :: Clear(r, w.log, id)) && Permitted(r, w.log, x) && x.unchecked == {}
    ensures (forall id :: Evens(r, w, x, id)) <==> Doubled(r, w) == {}
    ensures forall id :: OneFolder(IntentsOf(r, w.log, id)) ==> Repaid(r, w, x, id)
  {
    assert r.trash != NOWHERE;
    hide Traced, Permitted, Clear, Due, GoneOf, ArrivedOf, HasArrived, Repaid;
    forall id ensures Evens(r, w, x, id) <==> DoubledOf(r, w, id) == {} {
      ClearDue(r, w, x, id);
      ArrivedCount(r, w, id);
    }
    forall l | l in Doubled(r, w) ensures l in r.s0.mail && l in DoubledOf(r, w, r.s0.mail[l].id) {
    }
    forall id | OneFolder(IntentsOf(r, w.log, id)) ensures Repaid(r, w, x, id) {
      ClearDue(r, w, x, id);
      OneFolderRepaid(r, w, x, id);
    }
  }

  lemma OneFolderRepaid(r: Run, w: World, x: Site, id: string)
    requires Traced(r, w) && OneFolder(IntentsOf(r, w.log, id)) && r.trash != NOWHERE
    requires Due(r, w, x, id) == |GoneOf(r, w, id)|
    ensures Repaid(r, w, x, id)
  {
    hide Traced, Goal, Due, OneFolder, GoneOf, ArrivedOf, DoubledOf, Copies;
    ArrivedCount(r, w, id);
    TrashHolds(r, w, id);
    SubsetCount(ArrivedOf(r, w, id), Copies(w.server, r.trash, id));
    GoneFromGoal(r, w, x, id);
  }

  lemma GoneFromGoal(r: Run, w: World, x: Site, id: string)
    requires Traced(r, w) && OneFolder(IntentsOf(r, w.log, id)) && r.trash != NOWHERE
    ensures forall l <- GoneOf(r, w, id) :: l.folder == Goal(r, w.log)(id)
  {
    assert LogOk(r, w.log);
    hide Traced, LogOk, Goal, Due, IntentsOf, GoneOf;
    GoneRecorded(r, w, id);
    QuotaIsDue(r, w, x, id);
  }

  lemma GoneRecorded(r: Run, w: World, id: string)
    requires Traced(r, w)
    ensures GoneOf(r, w, id) <= IntentsOf(r, w.log, id)
  {
    hide Traced, Intents;
    forall l | l in GoneOf(r, w, id) ensures l in IntentsOf(r, w.log, id) { WhatIsWhere(r, w, l); }
  }

  /** Undo is never stuck, wherever the run stopped. */
  lemma UndoGoesOn(r: Run, w: World, x: Site) returns (chosen: map<Loc, Folder>, es: History)
    requires Traced(r, w) && r.trash != NOWHERE
    ensures Attempt(r, w, x, chosen, es, true)
  {
    var d := TermsAt(r, w, x);
    assert WorldOk(w) && LogOk(r, w.log) && Grown(r, w.server);
    hide Traced, LogOk, IntentsOf, Quotas, Newest, Due, Goal, WantsOf;
    TermsAreOk(w, r.account, x.lower, x.special, x.unchecked);
    chosen := CanChoose(d, w.server, r.trash, OfFolder(d.wants, r.trash));
    forall l | l in chosen ensures l in w.server.mail && chosen[l] in w.server.next {
      ChosenInTrash(r, w, x, chosen, l);
      SourceExists(r, w, x, w.server.mail[l].id);
    }
    es := CanRestore(w, chosen, chosen.Keys);
  }

  lemma SourceExists(r: Run, w: World, x: Site, id: string)
    requires Grown(r, w.server) && LogOk(r, w.log) && r.trash != NOWHERE
    ensures var d, k := TermsAt(r, w, x), Key(r.trash, id);
      k in d.wants ==> d.wants[k].source in w.server.next
  {
    hide LogOk, Goal, Due, WantsOf, Quotas;
    QuotaIsDue(r, w, x, id);
  }
}
