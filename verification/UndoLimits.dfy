/** What undo does not promise, each shown on one small mailbox: the conditions
    of the recovery theorems are not there for convenience. */
module UndoLimits {
  import opened Mailbox
  import opened Audit
  import opened Events
  import opened Uids
  import opened WriteAhead
  import opened UndoPlan
  import opened Undo
  import opened UndoPolicy
  import opened Soundness
  import opened Entitlement
  import opened Recovery
  import opened Resumption
  import opened Moves
  import opened Halfway

  const INBOX: Folder := 1
  const TRASH: Folder := 2
  const LISTS: Folder := 3
  const NOTE := Mail("x", "", [])

  const SITE := Site(f => "", [], {})

  function Pend(src: Folder, uid: nat): Line {
    BLANK.(account := "me", action := Move, status := Pending, folder := src, uid := uid, id := "x", src := src, dst := TRASH)
  }

  function Finish(src: Folder, uids: seq<nat>): Line {
    BLANK.(account := "me", action := Move, status := Done, folder := src, uids := uids, src := src, dst := TRASH)
  }

  /** Undo refuses no folder there. */
  lemma NothingRefused(r: Run, log: seq<Line>, id: string)
    ensures !RefusesGoal(r, log, SITE, id) && BlockedDestinations(SITE.lower, SITE.special) == {}
  {
  }

  /** Undo chooses these copies if they are the newest of the one message its
      log names, as many as it is due. */
  lemma ChoosesThese(r: Run, w: World, locs: set<Loc>) returns (chosen: map<Loc, Folder>)
    requires LogOk(r, w.log) && r.trash != NOWHERE && IntentsOf(r, w.log, "x") != {}
    requires forall id :: id != "x" ==> IntentsOf(r, w.log, id) == {}
    requires Due(r, w, SITE, "x") == |locs| && Newest(Copies(w.server, r.trash, "x"), |locs|, locs)
    ensures chosen.Keys == locs && Chooses(r, w, SITE, chosen)
  {
    hide LogOk, IntentsOf, Due, Copies, Goal, WantsOf, Quotas;
    var d, k := TermsAt(r, w, SITE), Key(r.trash, "x");
    WantedFromTrash(r, w.log, ConfirmedBy(w.log, r.account));
    forall id ensures Key(r.trash, id) in d.wants <==> id == "x" {
      QuotaIsDue(r, w, SITE, id);
    }
    QuotaIsDue(r, w, SITE, "x");
    assert OfFolder(d.wants, r.trash) == {k};
    chosen := map l | l in locs :: d.wants[k].source;
    CopiesAre(w.server, r.trash, "x", locs);
    assert chosen.Keys * Copies(w.server, r.trash, "x") == locs;
    TermsAreOk(w, r.account, SITE.lower, SITE.special, SITE.unchecked);
  }

  lemma AllNewest(locs: set<Loc>)
    ensures Newest(locs, |locs|, locs)
  {
  }

  lemma CopiesAre(s: Server, f: Folder, id: string, locs: set<Loc>)
    requires Newest(Copies(s, f, id), |locs|, locs)
    ensures locs <= Copies(s, f, id)
    ensures forall l <- locs :: l in s.mail && l.folder == f && s.mail[l].id == id
  {
  }

  /** A log of pending lines and done lines, read line by line. */
  lemma ReadLine(r: Run, log: seq<Line>, l: Line)
    requires LogOk(r, log) && LineOk(r, l) && (IsIntent(l) ==> Loc(l.src, l.uid) !in Intents(log))
    ensures LogOk(r, log + [l])
    ensures Intents(log + [l]) == Intents(log) + if IsIntent(l) then {Loc(l.src, l.uid)} else {}
    ensures Confirmed(log + [l]) == Confirmed(log) + if IsDone(l) then LocsOf(l.src, l.uids) else {}
  {
    LogSnoc(r, log, l);
    ReadSnoc(log, l);
  }

  /** Two messages moved. */
  lemma TwoAway(s: Server, a: Loc, x: Loc, b: Loc, y: Loc)
    requires x in s.mail && y in s.mail && a !in s.mail && b !in s.mail && x != y && a != b
    ensures map[a := x, b := y].Values == {x, y}
    ensures Displace(s, map[a := x, b := y]) == (s.mail - {x} - {y})[a := s.mail[x]][b := s.mail[y]]
  {
    assert Displace(s, map[]) == s.mail && map[][a := x] == map[a := x];
    DisplaceMore(s, map[], x, a);
    DisplaceMore(s, map[a := x], y, b);
    assert map[a := x][b := y] == map[a := x, b := y];
    assert (s.mail - {x})[a := s.mail[x]] - {y} == (s.mail - {x} - {y})[a := s.mail[x]];
  }

  /** Two moves, one after the other. */
  lemma TwoMoves(w: World, d: Event, e: Event)
    requires Legal(w.server, d) && d.Moved? && Legal(ServerStep(w.server, d), e) && e.Moved?
    ensures var es := Then(Then(Start, d), e);
      LegalRun(w, es) && Replay(w, es) == Step(Step(w, d), e)
  {
    hide Legal, ServerStep;
    assert Replay(w, Start) == w && LegalRun(w, Start);
    assert Replay(w, Then(Start, d)) == Step(w, d) && LegalRun(w, Then(Start, d));
  }

  lemma TwoIntents(a: Line, b: Line)
    requires IsIntent(a) && IsIntent(b)
    ensures Open([a, b]) == Intents([a, b]) == {Loc(a.src, a.uid), Loc(b.src, b.uid)}
  {
    ReadSnoc([], a);
    ReadSnoc([a], b);
    assert [] + [a] == [a] && [a] + [b] == [a, b];
    assert Intents([]) == {} && Open([]) == {};
  }

  const BOTH_IN := Server(map[Loc(INBOX, 1) := NOTE, Loc(INBOX, 2) := NOTE, Loc(TRASH, 1) := NOTE],
                          map[INBOX := 3, TRASH := 2], map[INBOX := 7, TRASH := 7])
  const ONE_OUT := Server(map[Loc(TRASH, 2) := NOTE, Loc(INBOX, 2) := NOTE, Loc(TRASH, 1) := NOTE],
                          map[INBOX := 3, TRASH := 3], map[INBOX := 7, TRASH := 7])
  const TWO_OUT := Server(map[Loc(TRASH, 1) := NOTE, Loc(TRASH, 2) := NOTE, Loc(TRASH, 3) := NOTE],
                          map[INBOX := 3, TRASH := 4], map[INBOX := 7, TRASH := 7])
  const ONE_BACK := Server(map[Loc(TRASH, 1) := NOTE, Loc(TRASH, 2) := NOTE, Loc(INBOX, 3) := NOTE],
                           map[INBOX := 4, TRASH := 4], map[INBOX := 7, TRASH := 7])

  const FIRST_OUT := Moved(Loc(INBOX, 1), Loc(TRASH, 2))
  const SECOND_OUT := Moved(Loc(INBOX, 2), Loc(TRASH, 3))
  const SECOND_BACK := Moved(Loc(TRASH, 3), Loc(INBOX, 3))

  lemma FirstOut()
    ensures Legal(BOTH_IN, FIRST_OUT) && ServerStep(BOTH_IN, FIRST_OUT) == ONE_OUT
  {
    assert ServerStep(BOTH_IN, FIRST_OUT).mail == ONE_OUT.mail;
    assert ServerStep(BOTH_IN, FIRST_OUT).next == ONE_OUT.next;
  }

  lemma SecondOut()
    ensures Legal(ONE_OUT, SECOND_OUT) && ServerStep(ONE_OUT, SECOND_OUT) == TWO_OUT
  {
    assert ServerStep(ONE_OUT, SECOND_OUT).mail == TWO_OUT.mail;
    assert ServerStep(ONE_OUT, SECOND_OUT).next == TWO_OUT.next;
  }

  lemma SecondBack()
    ensures Legal(TWO_OUT, SECOND_BACK) && ServerStep(TWO_OUT, SECOND_BACK) == ONE_BACK
  {
    assert ServerStep(TWO_OUT, SECOND_BACK).mail == ONE_BACK.mail;
    assert ServerStep(TWO_OUT, SECOND_BACK).next == ONE_BACK.next;
  }

  lemma BothInOk()
    ensures ServerOk(BOTH_IN)
  {
  }

  lemma TwoOutOk()
    ensures ServerOk(TWO_OUT)
  {
  }

  lemma OneBackOk()
    ensures ServerOk(ONE_BACK)
  {
  }

  const TWICE := Run(BOTH_IN, TRASH, "me")

  const LOGGED := [Pend(INBOX, 1), Pend(INBOX, 2), Finish(INBOX, [1, 2])]

  /** Two copies of a message were moved to a Trash that already had one. */
  const BOTH_OUT := World(
    TWO_OUT,
    map[Loc(TRASH, 2) := Loc(INBOX, 1), Loc(TRASH, 3) := Loc(INBOX, 2)],
    map[Loc(INBOX, 1) := Loc(TRASH, 2), Loc(INBOX, 2) := Loc(TRASH, 3)], LOGGED, 3)

  /** An undo of that restored one of them and was interrupted. */
  const HALF_BACK := World(
    ONE_BACK,
    BOTH_OUT.came[Loc(INBOX, 3) := Loc(TRASH, 3)], BOTH_OUT.went[Loc(TRASH, 3) := Loc(INBOX, 3)], LOGGED, 3)

  const HALF_BACK_AT: map<Loc, Loc> := map[Loc(TRASH, 2) := Loc(INBOX, 1), Loc(INBOX, 3) := Loc(INBOX, 2)]

  lemma HalfBackLog()
    ensures var log := HALF_BACK.log;
      LogOk(TWICE, log) && Intents(log) == Confirmed(log) == {Loc(INBOX, 1), Loc(INBOX, 2)}
  {
    var a, b, c := Pend(INBOX, 1), Pend(INBOX, 2), Finish(INBOX, [1, 2]);
    ReadLine(TWICE, [], a);
    ReadLine(TWICE, [] + [a], b);
    ReadLine(TWICE, [] + [a] + [b], c);
    assert HALF_BACK.log == [] + [a] + [b] + [c];
    assert LocsOf(INBOX, [1, 2]) == {Loc(INBOX, 1), Loc(INBOX, 2)} by {
      assert 1 in [1, 2] && 2 in [1, 2];
    }
  }

  lemma HalfBackMail()
    ensures HALF_BACK.server.mail == Displace(TWICE.s0, HALF_BACK_AT)
    ensures HALF_BACK_AT.Values == {Loc(INBOX, 1), Loc(INBOX, 2)}
  {
    hide Displace;
    TwoAway(BOTH_IN, Loc(TRASH, 2), Loc(INBOX, 1), Loc(INBOX, 3), Loc(INBOX, 2));
  }

  lemma HalfBackServers()
    ensures ServerOk(TWICE.s0) && ServerOk(HALF_BACK.server)
  {
    hide ServerOk;
    BothInOk();
    OneBackOk();
  }

  lemma HalfBackAt()
    ensures Elsewhere(TWICE, HALF_BACK_AT) && Injective(HALF_BACK_AT)
  {
  }

  lemma HalfBackPlaced()
    ensures Placed(TWICE, HALF_BACK.server, HALF_BACK_AT) && WorldOk(HALF_BACK)
    ensures HALF_BACK_AT.Values == {Loc(INBOX, 1), Loc(INBOX, 2)}
  {
    hide Displace, ServerOk, Elsewhere, Injective;
    HalfBackMail();
    HalfBackServers();
    HalfBackAt();
    assert TWICE.s0.next.Keys == {INBOX, TRASH} == HALF_BACK.server.next.Keys;
  }

  lemma HalfBackRecoverable()
    ensures Recoverable(TWICE, HALF_BACK, HALF_BACK_AT, SITE)
  {
    HalfBackLog();
    HalfBackPlaced();
    hide LogOk, Placed, Confirmed, Intents;
    assert forall id :: IntentsOf(TWICE, HALF_BACK.log, id) <= Confirmed(HALF_BACK.log);
    assert forall id :: Clear(TWICE, HALF_BACK.log, id);
  }

  lemma HalfBackCopies()
    ensures |AtOf(TWICE, HALF_BACK_AT, "x")| == 2
    ensures Copies(HALF_BACK.server, TRASH, "x") == {Loc(TRASH, 1), Loc(TRASH, 2)}
  {
    hide AtOf;
    HalfBackAtOf();
  }

  lemma HalfBackAtOf()
    ensures |AtOf(TWICE, HALF_BACK_AT, "x")| == 2
  {
    assert AtOf(TWICE, HALF_BACK_AT, "x") == {Loc(TRASH, 2), Loc(INBOX, 3)};
  }

  /** The log names copies of one message only. */
  lemma LoggedIntents()
    ensures Intents(LOGGED) == {Loc(INBOX, 1), Loc(INBOX, 2)} ==>
              && IntentsOf(TWICE, LOGGED, "x") == {Loc(INBOX, 1), Loc(INBOX, 2)}
              && forall id :: id != "x" ==> IntentsOf(TWICE, LOGGED, id) == {}
  {
    hide Intents;
  }

  /** Undo started again takes the copy that was in Trash before the run: it
      has forgotten that one of its two is back. */
  lemma RerunTakesOlderCopy() returns (chosen: map<Loc, Folder>)
    ensures Recoverable(TWICE, HALF_BACK, HALF_BACK_AT, SITE) && Chooses(TWICE, HALF_BACK, SITE, chosen)
    ensures Loc(TRASH, 1) in chosen && Loc(TRASH, 1) in TWICE.s0.mail
  {
    hide LogOk, Placed, Confirmed, Intents, IntentsOf, AtOf, Copies, Clear, Due, Goal, RefusesGoal, Chooses;
    HalfBackLog();
    HalfBackRecoverable();
    HalfBackCopies();
    LoggedIntents();
    assert Clear(TWICE, HALF_BACK.log, "x");
    NothingRefused(TWICE, HALF_BACK.log, "x");
    Entitled(TWICE, HALF_BACK, HALF_BACK_AT, SITE, "x");
    AllNewest({Loc(TRASH, 1), Loc(TRASH, 2)});
    chosen := ChoosesThese(TWICE, HALF_BACK, {Loc(TRASH, 1), Loc(TRASH, 2)});
  }

  const AT_FIRST := World(TWICE.s0, map[], map[], [], 0)

  const INTENDED := Then(Then(Start, Wrote(Pend(INBOX, 1))), Wrote(Pend(INBOX, 2)))
  const TAKEN := Then(Then(Start, FIRST_OUT), SECOND_OUT)

  /** The world between writing the intents and moving. */
  const RECORDED := World(TWICE.s0, map[], map[], [Pend(INBOX, 1), Pend(INBOX, 2)], 2)
  const CARRIED := BOTH_OUT.(log := [Pend(INBOX, 1), Pend(INBOX, 2)], synced := 2)

  lemma IntendedInv()
    ensures InvThrough(TWICE, AT_FIRST, Then(INTENDED, Synced)) && Replay(AT_FIRST, Then(INTENDED, Synced)) == RECORDED
  {
    HalfBackServers();
    hide ServerOk, Inv, InvThrough, Intends, Named;
    InvAtFirst(TWICE, AT_FIRST);
    InvThroughStart(TWICE, AT_FIRST);
    IntendedShape();
    IntendsInv(TWICE, AT_FIRST, INBOX, INTENDED);
    SyncInv(TWICE, AT_FIRST, INTENDED);
    IntendedReplay();
  }

  lemma IntendedReplay()
    ensures Replay(AT_FIRST, Then(INTENDED, Synced)) == RECORDED
  {
    assert [Pend(INBOX, 1)] + [Pend(INBOX, 2)] == RECORDED.log;
    assert Replay(AT_FIRST, Then(Start, Wrote(Pend(INBOX, 1)))).log == [Pend(INBOX, 1)];
  }

  lemma IntendedShape()
    ensures Intends(TWICE, TWICE.s0, INBOX, INTENDED) && |Named(INTENDED)| <= MOVE_BATCH && Open(AT_FIRST.log) == {}
    ensures Named(INTENDED) == {Loc(INBOX, 1), Loc(INBOX, 2)} && Intents(AT_FIRST.log) == {}
  {
    PendsFit();
    hide IntentFor, Intends, Named;
    TwoIntend(TWICE, BOTH_IN, INBOX, Pend(INBOX, 1), Pend(INBOX, 2));
    assert |{Loc(INBOX, 1), Loc(INBOX, 2)}| == 2;
  }

  lemma PendsFit()
    ensures IntentFor(TWICE, BOTH_IN, INBOX, Pend(INBOX, 1)) && IntentFor(TWICE, BOTH_IN, INBOX, Pend(INBOX, 2))
  {
  }

  lemma TwoIntend(r: Run, s: Server, src: Folder, a: Line, b: Line)
    requires IntentFor(r, s, src, a) && IntentFor(r, s, src, b) && a.uid != b.uid
    ensures var es := Then(Then(Start, Wrote(a)), Wrote(b));
      Intends(r, s, src, es) && Named(es) == {Loc(src, a.uid), Loc(src, b.uid)}
  {
    var one := Then(Start, Wrote(a));
    assert Named(one) == {Loc(src, a.uid)};
    assert Intends(r, s, src, one);
  }

  lemma TakenShape()
    ensures LegalRun(RECORDED, TAKEN) && IsCommand(TAKEN, Moving, INBOX, TRASH) && Replay(RECORDED, TAKEN) == CARRIED
    ensures Acted(TAKEN) == {Loc(INBOX, 1), Loc(INBOX, 2)}
  {
    FirstOut();
    SecondOut();
    TakenCommand();
    hide Legal, ServerStep, IsCommand, LegalRun, Replay, Acted;
    TwoMoves(RECORDED, FIRST_OUT, SECOND_OUT);
    assert Step(RECORDED, FIRST_OUT).server == ONE_OUT;
    assert Step(Step(RECORDED, FIRST_OUT), SECOND_OUT) == CARRIED;
  }

  lemma TakenCommand()
    ensures IsCommand(TAKEN, Moving, INBOX, TRASH) && Acted(TAKEN) == {Loc(INBOX, 1), Loc(INBOX, 2)}
  {
    var one := Then(Start, FIRST_OUT);
    assert IsCommand(one, Moving, INBOX, TRASH) && Acted(one) == {Loc(INBOX, 1)};
  }

  lemma RecordedLog()
    ensures Open(RECORDED.log) == Intents(RECORDED.log) == {Loc(INBOX, 1), Loc(INBOX, 2)}
    ensures RECORDED.log[..RECORDED.synced] == RECORDED.log
  {
    hide Open, Intents;
    TwoIntents(Pend(INBOX, 1), Pend(INBOX, 2));
  }

  lemma TakenInv()
    requires Inv(TWICE, RECORDED)
    ensures InvThrough(TWICE, RECORDED, TAKEN) && Replay(RECORDED, TAKEN) == CARRIED
    ensures CARRIED.came.Values == {Loc(INBOX, 1), Loc(INBOX, 2)}
  {
    hide Inv, InvThrough, Intents, Open, LegalRun, IsCommand;
    InvThroughStart(TWICE, RECORDED);
    RecordedLog();
    TakenShape();
    InvMoveRun(TWICE, RECORDED, TAKEN, INBOX);
  }

  lemma FinishedInv()
    requires Inv(TWICE, CARRIED) && CARRIED.came.Values == {Loc(INBOX, 1), Loc(INBOX, 2)}
    ensures var es := Then(Then(Start, Wrote(Finish(INBOX, [1, 2]))), Synced);
      InvThrough(TWICE, CARRIED, es) && Replay(CARRIED, es) == BOTH_OUT
  {
    hide Inv, InvThrough, Intents, Open;
    InvThroughStart(TWICE, CARRIED);
    RecordedLog();
    BothNamed();
    DoneInv(TWICE, CARRIED, INBOX, [1, 2], Finish(INBOX, [1, 2]));
    assert CARRIED.log + [Finish(INBOX, [1, 2])] == LOGGED;
    var one := Then(Start, Wrote(Finish(INBOX, [1, 2])));
    assert Replay(CARRIED, one) == Step(CARRIED, Wrote(Finish(INBOX, [1, 2]))) == BOTH_OUT.(synced := 2);
    assert Replay(CARRIED, Then(one, Synced)) == BOTH_OUT;
  }

  lemma BothNamed()
    ensures LocsOf(INBOX, [1, 2]) == {Loc(INBOX, 1), Loc(INBOX, 2)}
  {
    assert 1 in [1, 2] && 2 in [1, 2];
  }

  /** HALF_BACK is where a delete run that keeps the write-ahead invariant, and
      then an undo interrupted part way, lead. */
  lemma HalfBackReached() returns (run: History, chosen: map<Loc, Folder>, es: History)
    ensures InvThrough(TWICE, AT_FIRST, run) && Replay(AT_FIRST, run) == BOTH_OUT
    ensures Attempt(TWICE, BOTH_OUT, SITE, chosen, es, false)
    ensures Replay(BOTH_OUT, es).synced <= 3 <= |Replay(BOTH_OUT, es).log| && Crash(Replay(BOTH_OUT, es), 3) == HALF_BACK
  {
    hide Inv, InvThrough, Chooses;
    var a, z := Then(INTENDED, Synced), Then(Then(Start, Wrote(Finish(INBOX, [1, 2]))), Synced);
    IntendedInv();
    InvNow(TWICE, AT_FIRST, a);
    TakenInv();
    InvNow(TWICE, RECORDED, TAKEN);
    FinishedInv();
    InvThroughAppend(TWICE, RECORDED, TAKEN, z);
    InvThroughAppend(TWICE, AT_FIRST, a, Append(TAKEN, z));
    run := Append(a, Append(TAKEN, z));
    AppendReplay(AT_FIRST, a, Append(TAKEN, z));
    AppendReplay(RECORDED, TAKEN, z);
    chosen := ChoosesBoth();
    es := Then(Start, SECOND_BACK);
    assert LOGGED[..3] == LOGGED;
    OneBack(chosen, es);
  }

  lemma OneBack(chosen: map<Loc, Folder>, es: History)
    requires es == Then(Start, SECOND_BACK) && Loc(TRASH, 3) in chosen && chosen[Loc(TRASH, 3)] == INBOX
    ensures Restoring(es, chosen) && LegalRun(BOTH_OUT, es) && Replay(BOTH_OUT, es) == HALF_BACK
  {
    SecondBack();
    hide Legal, ServerStep;
    assert LegalRun(BOTH_OUT, Start);
  }

  lemma BothOutMail()
    ensures Displace(TWICE.s0, BOTH_OUT.came) == TWO_OUT.mail && BOTH_OUT.came.Values == {Loc(INBOX, 1), Loc(INBOX, 2)}
  {
    hide Displace;
    TwoAway(BOTH_IN, Loc(TRASH, 2), Loc(INBOX, 1), Loc(TRASH, 3), Loc(INBOX, 2));
  }

  lemma BothOutAt()
    ensures Elsewhere(TWICE, BOTH_OUT.came) && Injective(BOTH_OUT.came)
  {
  }

  lemma BothOutPlaced()
    ensures Placed(TWICE, BOTH_OUT.server, BOTH_OUT.came) && BOTH_OUT.came.Values == {Loc(INBOX, 1), Loc(INBOX, 2)}
  {
    hide ServerOk, Displace, Elsewhere, Injective;
    BothInOk();
    TwoOutOk();
    BothOutMail();
    BothOutAt();
    assert TWICE.s0.next.Keys == {INBOX, TRASH} == TWO_OUT.next.Keys;
  }

  lemma ChoosesBoth() returns (chosen: map<Loc, Folder>)
    ensures Chooses(TWICE, BOTH_OUT, SITE, chosen) && Loc(TRASH, 3) in chosen && chosen[Loc(TRASH, 3)] == INBOX
  {
    hide LogOk, Placed, Confirmed, Intents, IntentsOf, AtOf, Copies, Due, Goal, RefusesGoal, Chooses;
    HalfBackLog();
    BothOutPlaced();
    BothOutCopies();
    LoggedIntents();
    NothingRefused(TWICE, LOGGED, "x");
    Entitled(TWICE, BOTH_OUT, BOTH_OUT.came, SITE, "x");
    ThisNewest();
    chosen := ChoosesThese(TWICE, BOTH_OUT, {Loc(TRASH, 2), Loc(TRASH, 3)});
    ChosenGoal(TWICE, BOTH_OUT, SITE, chosen, Loc(TRASH, 3));
    LoggedGoal();
  }

  lemma ThisNewest()
    ensures Newest({Loc(TRASH, 1), Loc(TRASH, 2), Loc(TRASH, 3)}, |{Loc(TRASH, 2), Loc(TRASH, 3)}|,
        {Loc(TRASH, 2), Loc(TRASH, 3)})
  {
    assert |{Loc(TRASH, 1), Loc(TRASH, 2), Loc(TRASH, 3)}| == 3 && |{Loc(TRASH, 2), Loc(TRASH, 3)}| == 2;
  }

  lemma LoggedGoal()
    ensures Goal(TWICE, LOGGED)("x") == INBOX
  {
    assert LOGGED[0] == Pend(INBOX, 1);
  }

  lemma BothOutCopies()
    ensures |AtOf(TWICE, BOTH_OUT.came, "x")| == 2 && |{Loc(TRASH, 2), Loc(TRASH, 3)}| == 2
    ensures Copies(BOTH_OUT.server, TRASH, "x") == {Loc(TRASH, 1), Loc(TRASH, 2), Loc(TRASH, 3)}
  {
    hide AtOf;
    BothOutAtOf();
  }

  lemma BothOutAtOf()
    ensures |AtOf(TWICE, BOTH_OUT.came, "x")| == 2
  {
    assert AtOf(TWICE, BOTH_OUT.came, "x") == {Loc(TRASH, 2), Loc(TRASH, 3)};
  }

  const SPREAD := Run(
    Server(map[Loc(INBOX, 1) := NOTE, Loc(LISTS, 5) := NOTE, Loc(TRASH, 1) := NOTE],
           map[INBOX := 2, LISTS := 6, TRASH := 2], map[INBOX := 7, LISTS := 7, TRASH := 7]), TRASH, "me")

  /** The run moved a message out of INBOX, recorded its intent to move a copy
      of the same message out of another folder, and crashed before it did. */
  const HALF_DONE := World(
    Server(map[Loc(LISTS, 5) := NOTE, Loc(TRASH, 1) := NOTE, Loc(TRASH, 2) := NOTE],
           map[INBOX := 2, LISTS := 6, TRASH := 3], map[INBOX := 7, LISTS := 7, TRASH := 7]),
    map[], map[], [Pend(INBOX, 1), Finish(INBOX, [1]), Pend(LISTS, 5)], 3)

  const HALF_DONE_AT: map<Loc, Loc> := map[Loc(TRASH, 2) := Loc(INBOX, 1)]

  lemma HalfDoneLog()
    ensures var log := HALF_DONE.log;
      && LogOk(SPREAD, log) && Intents(log) == {Loc(INBOX, 1), Loc(LISTS, 5)} && Confirmed(log) == {Loc(INBOX, 1)}
      && FirstSource(log, "me", Key(TRASH, "x")) == INBOX
  {
    var a, b, c := Pend(INBOX, 1), Finish(INBOX, [1]), Pend(LISTS, 5);
    ReadLine(SPREAD, [], a);
    ReadLine(SPREAD, [] + [a], b);
    ReadLine(SPREAD, [] + [a] + [b], c);
    assert HALF_DONE.log == [] + [a] + [b] + [c];
    assert LocsOf(INBOX, [1]) == {Loc(INBOX, 1)} by { assert 1 in [1]; }
    assert HALF_DONE.log[0] == a;
  }

  lemma HalfDoneMail()
    ensures HALF_DONE.server.mail == Displace(SPREAD.s0, HALF_DONE_AT) && HALF_DONE_AT.Values == {Loc(INBOX, 1)}
    ensures Elsewhere(SPREAD, HALF_DONE_AT) && Injective(HALF_DONE_AT)
  {
    assert HALF_DONE_AT[Loc(TRASH, 2)] == Loc(INBOX, 1);
    assert Displace(SPREAD.s0, HALF_DONE_AT) == HALF_DONE.server.mail;
  }

  lemma HalfDoneServers()
    ensures ServerOk(SPREAD.s0) && ServerOk(HALF_DONE.server)
  {
  }

  lemma HalfDonePlaced()
    ensures Placed(SPREAD, HALF_DONE.server, HALF_DONE_AT) && HALF_DONE_AT.Values == {Loc(INBOX, 1)}
  {
    hide Displace, ServerOk, Elsewhere, Injective;
    HalfDoneMail();
    HalfDoneServers();
    assert SPREAD.s0.next.Keys == {INBOX, LISTS, TRASH} == HALF_DONE.server.next.Keys;
  }

  lemma HalfDoneCopies()
    ensures Copies(HALF_DONE.server, TRASH, "x") == {Loc(TRASH, 1), Loc(TRASH, 2)}
    ensures Holding(HALF_DONE.server, INBOX, "x") == {}
    ensures Intents(HALF_DONE.log) == {Loc(INBOX, 1), Loc(LISTS, 5)} ==>
              && IntentsOf(SPREAD, HALF_DONE.log, "x") == {Loc(INBOX, 1), Loc(LISTS, 5)}
              && forall id :: id != "x" ==> IntentsOf(SPREAD, HALF_DONE.log, id) == {}
  {
  }

  lemma HalfDoneSeen()
    requires Goal(SPREAD, HALF_DONE.log)("x") == INBOX && Holding(HALF_DONE.server, INBOX, "x") == {}
    requires IntentsOf(SPREAD, HALF_DONE.log, "x") == {Loc(INBOX, 1), Loc(LISTS, 5)}
    requires Copies(HALF_DONE.server, TRASH, "x") == {Loc(TRASH, 1), Loc(TRASH, 2)}
    ensures !TellsApart(SPREAD, HALF_DONE, SITE, "x") && Due(SPREAD, HALF_DONE, SITE, "x") == 2
  {
    hide Goal, Holding, IntentsOf, Copies;
    NothingRefused(SPREAD, HALF_DONE.log, "x");
    var all, trash := {Loc(INBOX, 1), Loc(LISTS, 5)}, {Loc(TRASH, 1), Loc(TRASH, 2)};
    assert |all| == 2 && |trash| == 2;
    assert Seen(SPREAD, HALF_DONE, SITE, "x") == {};
    assert Here(SPREAD, HALF_DONE, "x") == {Loc(LISTS, 5)};
  }

  /** Undo looks for the recorded copies in the first one's folder only, does
      not find the one that never moved, and takes a copy that was in Trash
      before the run in its place. */
  lemma SecondFolderOvercounts() returns (chosen: map<Loc, Folder>)
    ensures Placed(SPREAD, HALF_DONE.server, HALF_DONE_AT) && Witnessed(SPREAD, HALF_DONE.log, HALF_DONE_AT.Values)
    ensures Permitted(SPREAD, HALF_DONE.log, SITE) && !Clear(SPREAD, HALF_DONE.log, "x")
    ensures !TellsApart(SPREAD, HALF_DONE, SITE, "x") && Chooses(SPREAD, HALF_DONE, SITE, chosen)
    ensures Loc(TRASH, 1) in chosen && Loc(TRASH, 1) in SPREAD.s0.mail
  {
    hide LogOk, Placed, Confirmed, Intents, IntentsOf, Copies, Holding, Chooses, FirstSource, Due, TellsApart,
        BlockedDestinations;
    HalfDoneLog();
    HalfDonePlaced();
    HalfDoneCopies();
    var r, w := SPREAD, HALF_DONE;
    NothingRefused(r, w.log, "x");
    HalfDoneSeen();
    AllNewest({Loc(TRASH, 1), Loc(TRASH, 2)});
    chosen := ChoosesThese(r, w, {Loc(TRASH, 1), Loc(TRASH, 2)});
  }

  const KEPT := Mail("x", "", ["\\Flagged"])

  /** Three copies of a message, one of them flagged and so never moved, at the
      UID another has in another folder. Trash has none. */
  const THREE_IN := Server(map[Loc(INBOX, 1) := NOTE, Loc(INBOX, 5) := KEPT, Loc(LISTS, 5) := NOTE],
                           map[INBOX := 6, LISTS := 6, TRASH := 1], map[INBOX := 7, LISTS := 7, TRASH := 7])
  const THREE := Run(THREE_IN, TRASH, "me")
  const PAIR_OUT := Server(map[Loc(INBOX, 5) := KEPT, Loc(TRASH, 1) := NOTE, Loc(TRASH, 2) := NOTE],
                           map[INBOX := 6, LISTS := 6, TRASH := 3], map[INBOX := 7, LISTS := 7, TRASH := 7])
  const PAIR_BACK := Server(map[Loc(INBOX, 5) := KEPT, Loc(TRASH, 1) := NOTE, Loc(INBOX, 6) := NOTE],
                            map[INBOX := 7, LISTS := 6, TRASH := 3], map[INBOX := 7, LISTS := 7, TRASH := 7])

  const NEWER_BACK := Moved(Loc(TRASH, 2), Loc(INBOX, 6))
  const OLDER_BACK := Moved(Loc(TRASH, 1), Loc(INBOX, 7))

  /** Both unflagged copies moved; the crash came before the second was confirmed. */
  const SHADOWED := World(PAIR_OUT, map[Loc(TRASH, 1) := Loc(INBOX, 1), Loc(TRASH, 2) := Loc(LISTS, 5)],
    map[Loc(INBOX, 1) := Loc(TRASH, 1), Loc(LISTS, 5) := Loc(TRASH, 2)],
    [Pend(INBOX, 1), Finish(INBOX, [1]), Pend(LISTS, 5)], 3)

  lemma ShadowedLog()
    ensures var log := SHADOWED.log;
      && LogOk(THREE, log) && Intents(log) == {Loc(INBOX, 1), Loc(LISTS, 5)} && Confirmed(log) == {Loc(INBOX, 1)}
      && Goal(THREE, log)("x") == INBOX
  {
    var a, b, c := Pend(INBOX, 1), Finish(INBOX, [1]), Pend(LISTS, 5);
    ReadLine(THREE, [], a);
    ReadLine(THREE, [] + [a], b);
    ReadLine(THREE, [] + [a] + [b], c);
    assert SHADOWED.log == [] + [a] + [b] + [c];
    assert LocsOf(INBOX, [1]) == {Loc(INBOX, 1)} by { assert 1 in [1]; }
    assert SHADOWED.log[0] == a;
  }

  lemma ShadowedMail()
    ensures Displace(THREE_IN, SHADOWED.came) == PAIR_OUT.mail && SHADOWED.came.Values == {Loc(INBOX, 1), Loc(LISTS, 5)}
  {
    hide Displace;
    TwoAway(THREE_IN, Loc(TRASH, 1), Loc(INBOX, 1), Loc(TRASH, 2), Loc(LISTS, 5));
  }

  lemma ShadowedAt()
    ensures Elsewhere(THREE, SHADOWED.came) && Injective(SHADOWED.came)
  {
  }

  lemma ShadowedServers()
    ensures ServerOk(THREE_IN)
    ensures ServerOk(PAIR_OUT)
  {
  }

  lemma ShadowedPlaced()
    ensures Placed(THREE, PAIR_OUT, SHADOWED.came) && SHADOWED.came.Values == {Loc(INBOX, 1), Loc(LISTS, 5)}
  {
    hide ServerOk, Displace, Elsewhere, Injective;
    ShadowedServers();
    ShadowedMail();
    ShadowedAt();
    assert THREE_IN.next.Keys == {INBOX, LISTS, TRASH} == PAIR_OUT.next.Keys;
  }

  lemma ShadowedIntents()
    ensures Intents(SHADOWED.log) == {Loc(INBOX, 1), Loc(LISTS, 5)} ==>
              && IntentsOf(THREE, SHADOWED.log, "x") == {Loc(INBOX, 1), Loc(LISTS, 5)}
              && (forall id :: id != "x" ==> IntentsOf(THREE, SHADOWED.log, id) == {})
              && NoPriorCopies(THREE, SHADOWED.log)
  {
    hide Intents;
    assert Copies(THREE_IN, TRASH, "x") == {};
  }

  /** Undo counts the flagged copy's UID as one that never moved. */
  lemma ShadowedDue(w: World)
    requires w.log == SHADOWED.log && Goal(THREE, w.log)("x") == INBOX && Confirmed(w.log) == {Loc(INBOX, 1)}
    requires IntentsOf(THREE, w.log, "x") == {Loc(INBOX, 1), Loc(LISTS, 5)} && 5 in Holding(w.server, INBOX, "x")
    ensures Due(THREE, w, SITE, "x") == 1
  {
    hide Goal, Holding, IntentsOf, Confirmed;
    NothingRefused(THREE, w.log, "x");
    var all := {Loc(INBOX, 1), Loc(LISTS, 5)};
    assert |all| == 2;
    assert Seen(THREE, w, SITE, "x") == {Loc(LISTS, 5)};
  }

  lemma PairCopies()
    ensures Copies(PAIR_OUT, TRASH, "x") == {Loc(TRASH, 1), Loc(TRASH, 2)} && 5 in Holding(PAIR_OUT, INBOX, "x")
    ensures Copies(PAIR_BACK, TRASH, "x") == {Loc(TRASH, 1)} && 5 in Holding(PAIR_BACK, INBOX, "x")
  {
    assert Loc(INBOX, 5) in Copies(PAIR_OUT, INBOX, "x");
    assert Loc(INBOX, 5) in Copies(PAIR_BACK, INBOX, "x");
  }

  lemma PairSteps()
    ensures Legal(PAIR_OUT, NEWER_BACK) && ServerStep(PAIR_OUT, NEWER_BACK) == PAIR_BACK
    ensures Legal(PAIR_BACK, OLDER_BACK)
  {
    assert ServerStep(PAIR_OUT, NEWER_BACK).mail == PAIR_BACK.mail;
    assert ServerStep(PAIR_OUT, NEWER_BACK).next == PAIR_BACK.next;
  }

  /** An attempt that restores one message and is complete. */
  lemma RestoresOne(w: World, l: Loc, e: Event, all: set<Loc>) returns (chosen: map<Loc, Folder>, es: History)
    requires w.log == SHADOWED.log && 5 in Holding(w.server, INBOX, "x")
    requires Copies(w.server, TRASH, "x") == all && Newest(all, 1, {l})
    requires e.Moved? && e.at == l && e.to.folder == INBOX && Legal(w.server, e)
    ensures Attempt(THREE, w, SITE, chosen, es, true) && es == Then(Start, e) && Acted(es) == {l}
  {
    hide LogOk, Confirmed, Intents, IntentsOf, Copies, Holding, Goal, Due, Chooses, Legal;
    ShadowedLog();
    ShadowedIntents();
    ShadowedDue(w);
    assert |{l}| == 1;
    chosen := ChoosesThese(THREE, w, {l});
    ChosenGoal(THREE, w, SITE, chosen, l);
    CopiesAre(w.server, TRASH, "x", {l});
    es := Then(Start, e);
    OneAttempt(THREE, w, chosen, l, e);
  }

  lemma OneAttempt(r: Run, w: World, chosen: map<Loc, Folder>, l: Loc, e: Event)
    requires Chooses(r, w, SITE, chosen) && chosen.Keys == {l} && e.Moved? && e.at == l && e.to.folder == chosen[l]
    requires Legal(w.server, e)
    ensures Attempt(r, w, SITE, chosen, Then(Start, e), true) && Acted(Then(Start, e)) == {l}
  {
    hide Chooses, Legal;
    assert LegalRun(w, Start) && Restoring(Start, chosen) && Acted(Start) == {} && Replay(w, Start) == w;
  }

  lemma OneNewest()
    ensures Newest({Loc(TRASH, 1), Loc(TRASH, 2)}, 1, {Loc(TRASH, 2)}) && Newest({Loc(TRASH, 1)}, 1, {Loc(TRASH, 1)})
  {
    assert |{Loc(TRASH, 1), Loc(TRASH, 2)}| == 2 && |{Loc(TRASH, 1)}| == 1 && |{Loc(TRASH, 2)}| == 1;
  }

  /** With no copy in Trash before the run, a log that is not clear is enough for
      a completed undo to leave one of the run's copies in Trash, and for the
      next undo to move it. */
  lemma ShadowedUndo() returns (chosen: map<Loc, Folder>, es: History, chosen': map<Loc, Folder>, es': History)
    ensures Placed(THREE, SHADOWED.server, SHADOWED.came) && Witnessed(THREE, SHADOWED.log, SHADOWED.came.Values)
    ensures Permitted(THREE, SHADOWED.log, SITE) && NoPriorCopies(THREE, SHADOWED.log) && !Clear(THREE, SHADOWED.log, "x")
    ensures Attempt(THREE, SHADOWED, SITE, chosen, es, true) && !TrashAsBefore(THREE, Replay(SHADOWED, es).server)
    ensures Attempt(THREE, Replay(SHADOWED, es), SITE, chosen', es', true) && Acted(es') != {}
  {
    hide LogOk, Confirmed, Intents, IntentsOf, Copies, Holding, Goal, Attempt, Legal, ServerStep, Placed,
        NoPriorCopies, BlockedDestinations;
    ShadowedLog();
    ShadowedPlaced();
    ShadowedIntents();
    PairCopies();
    PairSteps();
    OneNewest();
    NothingRefused(THREE, SHADOWED.log, "x");
    chosen, es := RestoresOne(SHADOWED, Loc(TRASH, 2), NEWER_BACK, {Loc(TRASH, 1), Loc(TRASH, 2)});
    var w := Replay(SHADOWED, es);
    OneReplay(SHADOWED, NEWER_BACK);
    assert w.server == PAIR_BACK && w.log == SHADOWED.log;
    chosen', es' := RestoresOne(w, Loc(TRASH, 1), OLDER_BACK, {Loc(TRASH, 1)});
    StillInTrash();
    ShadowedOpen();
  }

  lemma OneReplay(w: World, e: Event)
    requires Legal(w.server, e) && e.Moved?
    ensures var v := Replay(w, Then(Start, e)); v.server == ServerStep(w.server, e) && v.log == w.log
  {
    assert Replay(w, Start) == w;
  }

  lemma StillInTrash()
    ensures !TrashAsBefore(THREE, PAIR_BACK)
  {
    assert Loc(TRASH, 1) in PAIR_BACK.mail && Loc(TRASH, 1) !in THREE_IN.mail;
  }

  lemma ShadowedOpen()
    requires IntentsOf(THREE, SHADOWED.log, "x") == {Loc(INBOX, 1), Loc(LISTS, 5)} && Confirmed(SHADOWED.log) == {Loc(INBOX, 1)}
    ensures !Clear(THREE, SHADOWED.log, "x") && Permitted(THREE, SHADOWED.log, SITE)
  {
    hide IntentsOf, Confirmed, Intents;
    assert Loc(LISTS, 5) in IntentsOf(THREE, SHADOWED.log, "x") && Loc(LISTS, 5) !in Confirmed(SHADOWED.log);
    assert INBOX != LISTS;
    forall f: Folder ensures !Refuses(SITE.lower, BlockedDestinations(SITE.lower, SITE.special), f) { NeverRefused(f); }
  }

  lemma NeverRefused(f: Folder)
    ensures !Refuses(SITE.lower, BlockedDestinations(SITE.lower, SITE.special), f)
  {
  }

  const LONE := Run(Server(map[Loc(INBOX, 1) := NOTE], map[INBOX := 2, TRASH := 1], map[INBOX := 7, TRASH := 7]), TRASH, "me")
  const LONE_FIRST := World(LONE.s0, map[], map[], [], 0)
  const LONE_NAMED := World(LONE.s0, map[], map[], [Pend(INBOX, 1)], 1)

  /** A message was recorded and copied to Trash; then STORE was refused. */
  const LEFT_COPIED := World(
    Server(map[Loc(INBOX, 1) := NOTE, Loc(TRASH, 1) := NOTE], map[INBOX := 2, TRASH := 2], map[INBOX := 7, TRASH := 7]),
    map[Loc(TRASH, 1) := Loc(INBOX, 1)], map[Loc(INBOX, 1) := Loc(TRASH, 1)], [Pend(INBOX, 1)], 1)

  const NAMES := Then(Then(Start, Wrote(Pend(INBOX, 1))), Synced)
  const COPIES := Then(Start, Copied(Loc(INBOX, 1), Loc(TRASH, 1)))

  lemma LoneOk()
    ensures ServerOk(LONE.s0) && WorldOk(LONE_FIRST)
  {
  }

  lemma LoneNames()
    ensures Intends(LONE, LONE.s0, INBOX, NAMES.past) && Named(NAMES.past) == {Loc(INBOX, 1)} && |{Loc(INBOX, 1)}| == 1
    ensures Replay(LONE_FIRST, NAMES) == LONE_NAMED && Open(LONE_FIRST.log) == {} == Intents(LONE_FIRST.log)
  {
    assert IntentFor(LONE, LONE.s0, INBOX, Pend(INBOX, 1));
    assert NAMES.past.past == Start && Intends(LONE, LONE.s0, INBOX, Start) && Named(Start) == {};
    assert Replay(LONE_FIRST, NAMES.past).log == [Pend(INBOX, 1)];
  }

  lemma LoneNamed()
    ensures SoundThrough(false, LONE, LONE_FIRST, NAMES) && Replay(LONE_FIRST, NAMES) == LONE_NAMED
    ensures Inv(LONE, LONE_NAMED) && Settled(LONE, LONE_NAMED)
  {
    LoneOk();
    LoneNames();
    hide ServerOk, Inv, InvThrough, Intends, Named, SoundThrough, Sound, Settled, Touched;
    SoundAtFirst(false, LONE, LONE_FIRST);
    InvAtFirst(LONE, LONE_FIRST);
    InvThroughStart(LONE, LONE_FIRST);
    IntendsInv(LONE, LONE_FIRST, INBOX, NAMES.past);
    SyncInv(LONE, LONE_FIRST, NAMES.past);
    InvNow(LONE, LONE_FIRST, NAMES);
    SoundIntends(false, LONE, LONE_FIRST, INBOX, NAMES.past);
    SoundSynced(false, LONE, LONE_FIRST, NAMES.past);
    SettledLater(LONE, Replay(LONE_FIRST, NAMES.past), LONE_NAMED);
  }

  lemma SettledLater(r: Run, w: World, t: World)
    requires Settled(r, w) && Touched(r, t) == Touched(r, w) && t.log == w.log
    ensures Settled(r, t)
  {
  }

  lemma LoneCopies()
    ensures LegalRun(LONE_NAMED, COPIES) && IsCommand(COPIES, Copying, INBOX, TRASH) && Acted(COPIES) == {Loc(INBOX, 1)}
    ensures Orderly(COPIES) && Replay(LONE_NAMED, COPIES) == LEFT_COPIED
  {
    assert Replay(LONE_NAMED, Start) == LONE_NAMED && LegalRun(LONE_NAMED, Start) && Sources(Start) == {};
    var s := ServerStep(LONE.s0, COPIES.e);
    assert s.mail == LEFT_COPIED.server.mail && s.next == LEFT_COPIED.server.next;
  }

  lemma LoneTransit()
    ensures Transit(false, LONE_NAMED, INBOX, TRASH, {Loc(INBOX, 1)}, COPIES, Start, false)
  {
    LoneOk();
    LoneCopies();
    hide Legal, ServerStep, ServerOk, LegalRun, IsCommand, Replay, Orderly;
    var w, locs := LONE_NAMED, {Loc(INBOX, 1)};
    assert AllTracked(w, w, TRASH, locs, {}, {});
    CommandKeeps(w, w, COPIES, Copying, INBOX, TRASH, locs, {}, {});
    CommandConfined(COPIES, Copying, INBOX, TRASH, locs);
  }

  lemma LoneLog()
    ensures Open(LONE_NAMED.log) == {Loc(INBOX, 1)} == Intents(LONE_NAMED.log) == Durable(LONE_NAMED)
    ensures Confirmed(LONE_NAMED.log) == {}
  {
    ReadSnoc([], Pend(INBOX, 1));
    assert [] + [Pend(INBOX, 1)] == LONE_NAMED.log == LONE_NAMED.log[..1];
    assert Intents([]) == {} && Open([]) == {} && Confirmed([]) == {};
  }

  /** A run that keeps the guarantee at every moment leads there. */
  lemma LeftCopiedReached()
    ensures SoundThrough(false, LONE, LONE_FIRST, Append(NAMES, COPIES))
        && Replay(LONE_FIRST, Append(NAMES, COPIES)) == LEFT_COPIED
  {
    LoneNamed();
    LoneTransit();
    LoneLog();
    LoneCopies();
    hide Inv, SoundThrough, Transit, Settled, Open, Intents, Durable, LegalRun, Orderly, IsCommand, Ahead, Landed;
    SoundNow(false, LONE, LONE_FIRST, NAMES);
    SoundTransit(false, LONE, LONE_NAMED, INBOX, {Loc(INBOX, 1)}, COPIES, Start, false);
    SoundThroughAppend(false, LONE, LONE_FIRST, NAMES, COPIES);
    AppendReplay(LONE_FIRST, NAMES, COPIES);
  }

  lemma LeftCopiedTraced()
    ensures Traced(LONE, LEFT_COPIED)
  {
    hide Ahead, Landed, SoundThrough, Traced;
    LeftCopiedReached();
    SoundNow(false, LONE, LONE_FIRST, Append(NAMES, COPIES));
    assert LEFT_COPIED.log[..1] == LEFT_COPIED.log;
    CrashTraced(LONE, LEFT_COPIED, 1);
    assert Crash(LEFT_COPIED, 1) == LEFT_COPIED;
  }

  lemma LeftCopiedDoubled()
    ensures Doubled(LONE, LEFT_COPIED) == {Loc(INBOX, 1)}
  {
    assert Arrivals(LONE, LEFT_COPIED) == {Loc(TRASH, 1)};
  }

  lemma LeftCopiedClear()
    ensures (forall id :: Clear(LONE, LEFT_COPIED.log, id)) && Permitted(LONE, LEFT_COPIED.log, SITE)
  {
    LoneLog();
    hide Intents;
    forall f: Folder ensures !Refuses(SITE.lower, BlockedDestinations(SITE.lower, SITE.special), f) { NeverRefused(f); }
  }

  /** Inside a batch of the fallback telling copies apart is not enough: undo sees
      the message in its place, is due nothing, and leaves its copy in Trash. */
  lemma CopyLeftBehind()
    ensures SoundThrough(false, LONE, LONE_FIRST, Append(NAMES, COPIES))
        && Replay(LONE_FIRST, Append(NAMES, COPIES)) == LEFT_COPIED
    ensures (forall id :: Clear(LONE, LEFT_COPIED.log, id)) && Permitted(LONE, LEFT_COPIED.log, SITE)
    ensures (forall id :: TellsApart(LONE, LEFT_COPIED, SITE, id)) && Doubled(LONE, LEFT_COPIED) != {}
    ensures forall chosen, es :: Attempt(LONE, LEFT_COPIED, SITE, chosen, es, true) ==>
              !TrashAsBefore(LONE, Replay(LEFT_COPIED, es).server)
  {
    LeftCopiedReached();
    LeftCopiedTraced();
    LeftCopiedDoubled();
    LeftCopiedClear();
    hide SoundThrough, Traced, Doubled, Clear, Permitted, TellsApart, Attempt, TrashAsBefore, Evens, Goal, Seen, Here,
        RefusesGoal;
    ClearEvens(LONE, LEFT_COPIED, SITE);
    forall id ensures TellsApart(LONE, LEFT_COPIED, SITE, id) {
      NothingRefused(LONE, LEFT_COPIED.log, id);
      SeenIsHere(LONE, LEFT_COPIED, SITE, id);
      SeesAll(LONE, LEFT_COPIED, SITE, id);
    }
    forall chosen, es | Attempt(LONE, LEFT_COPIED, SITE, chosen, es, true)
      ensures !TrashAsBefore(LONE, Replay(LEFT_COPIED, es).server)
    {
      TrashEvens(LONE, LEFT_COPIED, SITE, chosen, es);
    }
  }

  lemma SeesAll(r: Run, w: World, x: Site, id: string)
    requires Seen(r, w, x, id) == Here(r, w, id) && !RefusesGoal(r, w.log, x, id)
    ensures TellsApart(r, w, x, id)
  {
  }
}
