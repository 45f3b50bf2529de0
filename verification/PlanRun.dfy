/** A confirmed run from its first log line to its last (internal/apply/apply.go). */
module PlanRun {
  import opened Mailbox
  import opened Audit
  import opened Events
  import opened Moves
  import opened Host
  import opened WriteAhead
  import opened Soundness
  import opened Rules
  import opened Apply
  import opened Store
  import opened Execute
  import P = Preview
  import H = RunHistory

  /** What came of one unsubscribe attempt. */
  datatype Result = Result(sender: string, status: string)

  function CountsOf(results: seq<Result>): map<string, nat> {
    if results == [] then map[] else Bump(CountsOf(results[..|results| - 1]), results[|results| - 1].status)
  }

  /** As many of each outcome as there are results with it. */
  lemma {:induction false} CountsMeaning(results: seq<Result>, k: string)
    ensures At(CountsOf(results), k) == |set i | 0 <= i < |results| && results[i].status == k|
  {
    if results != [] {
      var n := |results| - 1;
      CountsMeaning(results[..n], k);
      TotalBump(CountsOf(results[..n]), results[n].status);
      var before := set i | 0 <= i < n && results[..n][i].status == k;
      assert (set i | 0 <= i < |results| && results[i].status == k) == before + if results[n].status == k then {n} else {};
    }
  }

  /** The books when the first i of the pending lines have been written. */
  ghost predicate Owing(r: Runner, pending: seq<Line>, i: nat)
    requires i <= |pending|
    reads r, r.h, r.au
  {
    && Total(r.reasons) == r.skippedSenders + r.skippedMessages
    && (!r.au.failed ==> Owed(r, pending, i, Tally(r.h.world.log)))
  }

  ghost predicate Owed(r: Runner, pending: seq<Line>, i: nat, t: Counts)
    requires i <= |pending|
    reads r
  {
    && t.moved == r.moved && t.errors == 0 && t.unsubs == r.unsub
    && forall k :: At(r.reasons, k) + P.NotesOf(pending[..i], k) == At(t.skipped, k) + P.NotesOf(pending, k)
  }

  lemma OwedMore(r: Runner, pending: seq<Line>, i: nat, t: Counts, l: Line)
    requires i < |pending| && Owed(r, pending, i, t) && l.action == Skip && l.error == pending[i].error
    ensures Owed(r, pending, i + 1, Count(t, l))
  {
    TotalBump(t.skipped, l.error);
    forall k ensures P.NotesOf(pending[..i + 1], k) == P.NotesOf(pending[..i], k) + if pending[i].error == k then 1 else 0 {
      assert pending[..i + 1][..i] == pending[..i];
    }
  }

  /** The log has grown from before by the first i of the lines, in the account's name. */
  ghost predicate Grown(before: seq<Line>, log: seq<Line>, lines: seq<Line>, i: nat, account: string) {
    i <= |lines| && |log| == |before| + i && before <= log
    && forall j :: 0 <= j < i ==> log[|before| + j] == lines[j].(account := account)
  }

  lemma GrownMore(before: seq<Line>, log: seq<Line>, lines: seq<Line>, i: nat, account: string)
    requires i < |lines| && Grown(before, log, lines, i, account)
    ensures Grown(before, log + [lines[i].(account := account)], lines, i + 1, account)
  {
  }

  /** The line of a result, with its sender and outcome. */
  function Report(res: Result): Line {
    BLANK.(action := Unsubscribe, status := Outcome(res.status), sender := res.sender)
  }

  ghost function Reports(results: seq<Result>): seq<Line> {
    seq(|results|, i requires 0 <= i < |results| => Report(results[i]))
  }

  /** Writes the skips that were decided before the log existed. */
  method WritePending(r: Runner, pending: seq<Line>) returns (ghost es: History)
    requires r.Wired() && Owing(r, pending, 0) && forall l <- pending :: l.action == Skip
    modifies r.au, r.h
    ensures r.Wired() && r.h.Did(es) && LogsOnly(es) && r.Booked()
    ensures !r.au.failed ==> Grown(old(r.h.world.log), r.h.world.log, pending, |pending|, r.au.account)
    ensures r.FailedBy(old(r.au.failed))
  {
    es := Start;
    ghost var w, before := r.h.world, r.h.events;
    assert Grown(w.log, w.log, pending, 0, r.au.account);
    hide Owed, Grown, Tally, Step;
    for i := 0 to |pending|
      invariant r.Wired() && r.h.Since(w, before, es) && LogsOnly(es) && Owing(r, pending, i)
      invariant !r.au.failed ==> Grown(w.log, r.h.world.log, pending, i, r.au.account)
      invariant r.FailedBy(old(r.au.failed))
    {
      if !r.au.failed { GrownMore(w.log, r.h.world.log, pending, i, r.au.account); }
      var l := pending[i].(account := r.au.account);
      TallySnoc(r.h.world.log, l);
      if !r.au.failed { OwedMore(r, pending, i, Tally(r.h.world.log), l); }
      ghost var b := r.au.Write(pending[i]);
      SinceAppend(r.h, w, before, es, b);
      AppendLogsOnly(es, b);
      es := Append(es, b);
    }
    assert pending[..|pending|] == pending;
    if !r.au.failed { OwedNothing(r, pending, Tally(r.h.world.log)); }
  }

  lemma OwedNothing(r: Runner, pending: seq<Line>, t: Counts)
    requires Owed(r, pending, |pending|, t)
    ensures r.AddsUp(t)
  {
    assert pending[..|pending|] == pending;
    forall k ensures At(t.skipped, k) == At(r.reasons, k) {
      assert At(r.reasons, k) + P.NotesOf(pending[..|pending|], k) == At(t.skipped, k) + P.NotesOf(pending, k);
    }
  }

  /** The links the history of a run asks to look at are the results that were
      not plainly one thing or the other, under the sender each is for. */
  lemma ReportsShown(results: seq<Result>, x: H.Link)
    ensures x in H.ManualOf(Reports(results)) <==>
              && (exists res <- results :: x == H.Link(res.sender, res.status))
              && (x.status == "manual" || x.status == "probable" || x.status == "failed")
  {
    var lines := Reports(results);
    H.ManualMeaning(lines, x);
    if l :| l in lines && x == H.Link(l.sender, StatusText(l.status)) {
      var i :| 0 <= i < |lines| && lines[i] == l;
      assert results[i] in results;
    }
    if res :| res in results && x == H.Link(res.sender, res.status) {
      var i :| 0 <= i < |results| && results[i] == res;
      assert lines[i] in lines;
    }
  }

  /** Counts and logs one outcome. */
  method RecordUnsub(r: Runner, res: Result) returns (ghost es: History)
    requires r.Wired() && r.Booked()
    modifies r`unsub, r.au, r.h
    ensures r.Wired() && r.h.Did(es) && LogsOnly(es) && r.Booked()
    ensures r.unsub == Bump(old(r.unsub), res.status) && (old(r.au.failed) ==> r.au.failed)
    ensures !r.au.failed ==> r.h.world.log == old(r.h.world.log) + [Report(res).(account := r.au.account)]
    ensures r.FailedBy(old(r.au.failed))
  {
    r.unsub := Bump(r.unsub, res.status);
    TallySnoc(r.h.world.log, Report(res).(account := r.au.account));
    es := r.au.Write(Report(res));
  }

  /** Counts and logs the outcome of every unsubscribe attempt. */
  method RecordUnsubs(r: Runner, results: seq<Result>) returns (ghost es: History)
    requires r.Wired() && r.Booked() && r.unsub == map[]
    modifies r`unsub, r.au, r.h
    ensures r.Wired() && r.h.Did(es) && LogsOnly(es) && r.Booked()
    ensures r.unsub == CountsOf(results)
    ensures !r.au.failed ==> Grown(old(r.h.world.log), r.h.world.log, Reports(results), |results|, r.au.account)
    ensures r.FailedBy(old(r.au.failed))
  {
    es := Start;
    ghost var w, before := r.h.world, r.h.events;
    assert Grown(w.log, w.log, Reports(results), 0, r.au.account);
    hide ServerOk, Step, Tally, Grown, Reports;
    for i := 0 to |results|
      invariant r.Wired() && r.h.Since(w, before, es) && LogsOnly(es) && r.Booked()
      invariant r.FailedBy(old(r.au.failed))
      invariant r.unsub == CountsOf(results[..i])
      invariant !r.au.failed ==> Grown(w.log, r.h.world.log, Reports(results), i, r.au.account)
    {
      assert results[..i + 1][..i] == results[..i];
      if !r.au.failed { GrownMore(w.log, r.h.world.log, Reports(results), i, r.au.account); }
      ghost var b := RecordUnsub(r, results[i]);
      SinceAppend(r.h, w, before, es, b);
      AppendLogsOnly(es, b);
      es := Append(es, b);
    }
    assert results[..|results|] == results;
  }

  /** A runner that has been prepared and has done nothing yet. */
  ghost predicate Prepared(r: Runner, pending: seq<Line>)
    reads r, r.h, r.au, r.st
  {
    && r.Wired() && !r.au.failed
    && r.h.world.log == [] && r.h.world.came == map[] && r.run.s0 == r.h.world.server
    && r.moved == r.skippedMessages == 0 && r.skippedSenders == |pending| && r.unsub == map[]
    && Total(r.reasons) == |pending| && (forall l <- pending :: l.action == Skip)
    && forall k :: At(r.reasons, k) == P.NotesOf(pending, k)
  }

  /** The lines of a run before its deletes. */
  method Introduce(r: Runner, pending: seq<Line>, results: seq<Result>, noUnsubscribe: bool) returns (ok: bool, ghost es: History)
    requires Prepared(r, pending)
    modifies r`unsub, r.au, r.h
    ensures r.Wired() && r.h.Did(es) && LogsOnly(es) && r.Booked()
    ensures r.unsub == if noUnsubscribe || !ok then map[] else CountsOf(results)
    ensures r.FailedBy(false) && (ok || r.au.failed)
  {
    hide Step, Tally, WorldOk;
    assert Tally(r.h.world.log) == Counts(0, map[], 0, map[]) by { EmptyTally(); }
    ghost var w := r.h.world;
    es := WritePending(r, pending);
    ok := !r.au.failed;
    if !ok || noUnsubscribe { return; }
    ghost var b := RecordUnsubs(r, results);
    SinceAppend(r.h, w, old(r.h.events), es, b);
    AppendLogsOnly(es, b);
    es := Append(es, b);
  }

  lemma EmptyTally()
    ensures Tally([]) == Counts(0, map[], 0, map[])
  {
  }

  /** Executes a prepared run. When it ends without an error the summary adds
      up and the log says the same: so many moved, so many skipped, no errors,
      and so many unsubscribe attempts of each outcome. Every message targeted
      was either moved or skipped. Wherever it ends, and whatever commands the
      server has, the write-ahead guarantee held at every moment, and every
      message acted on was recorded before and authorised, judged against the
      server it started with. */
  method ExecuteRun(r: Runner, entries: seq<Entry>, pending: seq<Line>, results: seq<Result>, special: seq<Folder>,
                    noUnsubscribe: bool, noDelete: bool)
    returns (ok: bool, ghost es: History, ghost targets: seq<Target>)
    requires Prepared(r, pending)
    modifies r, r.au, r.h, r.st`rows
    ensures Accountable(r, old(r.h.world), old(r.h.events), es, old(r.st.rows), Waived(targets), AllRows(targets))
    ensures ok ==> Total(r.reasons) == r.skippedSenders + r.skippedMessages && r.AddsUp(Tally(r.h.world.log))
    ensures !ok ==> old(r.MayFail())
    // what the summary counts as moved is what the log confirms, and that is gone
    ensures ok ==> r.moved == |Confirmed(r.h.world.log)| && forall l <- Confirmed(r.h.world.log) :: l !in r.h.world.server.mail
    ensures ok && !noDelete && r.trashKnown ==> Delivered(r, old(r.h.world.server), special, targets)
    ensures ok && !noDelete ==> AllShut(r, old(|r.foldersSkipped|))
    ensures ok ==> r.skippedSenders == |pending| && r.unsub == if noUnsubscribe then map[] else CountsOf(results)
    ensures targets == [] || TargetsOf(old(r.st.rows), entries, targets)
    ensures ok && !noDelete ==> TargetsOf(old(r.st.rows), entries, targets)
    ensures ok && !noDelete && DistinctSenders(entries) ==> r.moved + r.skippedMessages == |AllRows(targets)|
    ensures noDelete ==> targets == [] && r.h.world.server == old(r.h.world.server)
  {
    hide Step, Tally, WorldOk, Inv, Ahead, Landed, SoundThrough, Authorised, Replay, LegalRun, Delivered, Confirmed, Sealed,
      Intents, Open, ProtectedFolders, AllShut;
    ghost var w, rows := r.h.world, r.st.rows;
    targets := [];
    SoundPrepared(r, pending);
    ok, es := Introduce(r, pending, results, noUnsubscribe);
    LogsOnlyKeeps(w, es);
    OnlyLogged(r, w, old(r.h.events), es, rows);
    if ok && !noDelete {
      ghost var w1, b := r.h.world, Start;
      ok, b, targets := DeleteAll(r, entries, special);
      ghost var a := es;
      es := Append(a, b);
      SinceAppend(r.h, w, old(r.h.events), a, b);
      Continued(r, w, w1, old(r.h.events), a, b, rows, Waived(targets), AllRows(targets));
    }
    AllConfirmedGone(r, w, old(r.h.events), es, rows, Waived(targets), AllRows(targets));
    ok := ok && !r.au.failed;
  }

  lemma SoundPrepared(r: Runner, pending: seq<Line>)
    requires Prepared(r, pending)
    ensures Sound(r.h.hasMove, r.run, r.h.world)
  {
    SoundAtFirst(r.h.hasMove, r.run, r.h.world);
  }

  lemma OnlyLogged(r: Runner, w: World, before: History, es: History, rows: Table)
    requires r.Wired() && r.h.Since(w, before, es) && LogsOnly(es) && w.log == [] && rows == r.st.rows
    requires Sound(r.h.hasMove, r.run, w)
    ensures Sound(r.h.hasMove, r.run, r.h.world)
    ensures Intents(r.h.world.log) == {} && Open(r.h.world.log) == {} && Confirmed(r.h.world.log) == {}
    ensures Accountable(r, w, before, es, rows, Waived([]), AllRows([]))
  {
    AheadOrdered(r.run, w);
    hide Ahead, Landed, Inv;
    LogsOnlyKeeps(w, es);
    SoundLogsOnly(r.h.hasMove, r.run, w, es);
    SoundNow(r.h.hasMove, r.run, w, es);
  }

  lemma Continued(r: Runner, w: World, w1: World, before: History, a: History, b: History, rows: Table,
                  waived: set<string>, all: seq<Row>)
    requires LogsOnly(a) && w1 == Replay(w, a) && w1.server == w.server && Sound(r.h.hasMove, r.run, w)
    requires r.h.Since(w, before, Append(a, b))
    requires Accountable(r, w1, Append(before, a), b, rows, waived, all)
    ensures Accountable(r, w, before, Append(a, b), rows, waived, all)
  {
    AheadOrdered(r.run, w);
    hide Inv, Ahead, Landed, SoundThrough, Authorised, RowsDropped, Replay;
    SoundLogsOnly(r.h.hasMove, r.run, w, a);
    SoundThroughAppend(r.h.hasMove, r.run, w, a, b);
  }

  /** What a decision of the plan still asks to delete everything of its sender,
      which is refused for the user's own address. */
  predicate DeletesAll(pr: P.Protection, d: Entry) {
    d.deleteAll && !P.IsOwn(pr, d)
  }

  /** An unprotected decision that still deletes. */
  ghost predicate Stands(pr: P.Protection, decisions: seq<Entry>, d: Entry) {
    d in decisions && !P.IsProtected(pr, d) && (d.deleteMatched || DeletesAll(pr, d))
  }

  /** The transactional rule is waived for a sender by a decision that stands. */
  ghost predicate KeepWaived(pr: P.Protection, decisions: seq<Entry>, sender: string) {
    exists d :: Stands(pr, decisions, d) && d.sender == sender && d.includeKept
  }

  /** The decision d is what the message at l may be moved on: it stands, the
      message is of its sender and in its scope, and the rules let it pass. */
  ghost predicate Covers(pr: P.Protection, decisions: seq<Entry>, c: Config, s: Server, t: Table, d: Entry, l: Loc) {
    && Stands(pr, decisions, d)
    && l in t && t[l].at == l && t[l].sender == d.sender && (DeletesAll(pr, d) || t[l].hasUnsub)
    && Cleared(c, s, t[l], KeepWaived(pr, decisions, d.sender))
  }

  /** The entries that delete are the decisions that stand. */
  lemma WantedStands(pr: P.Protection, decisions: seq<Entry>, e: Entry)
    ensures e in Wanted(P.Admitted(pr, decisions)) <==>
            exists d :: Stands(pr, decisions, d) && e == d.(deleteAll := DeletesAll(pr, d))
  {
    var entries := P.Admitted(pr, decisions);
    WantedHas(entries, e);
    P.AdmittedExactly(pr, decisions, e);
    if e in Wanted(entries) {
      var d :| d in decisions && P.Descends(pr, e, d);
      assert Stands(pr, decisions, d) && e == d.(deleteAll := DeletesAll(pr, d));
    }
    if d :| Stands(pr, decisions, d) && e == d.(deleteAll := DeletesAll(pr, d)) {
      assert d in decisions && P.Descends(pr, e, d);
    }
  }

  lemma WaivedIs(t: Table, pr: P.Protection, decisions: seq<Entry>, targets: seq<Target>, sender: string)
    requires TargetsOf(t, P.Admitted(pr, decisions), targets)
    ensures sender in Waived(targets) <==> KeepWaived(pr, decisions, sender)
  {
    hide Scoped, Stands, DeletesAll;
    var wanted := Wanted(P.Admitted(pr, decisions));
    if sender in Waived(targets) {
      var x :| x in targets && x.entry.includeKept && x.entry.sender == sender;
      assert x.entry in wanted;
      WantedStands(pr, decisions, x.entry);
      var d :| Stands(pr, decisions, d) && x.entry == d.(deleteAll := DeletesAll(pr, d));
    }
    if d :| Stands(pr, decisions, d) && d.sender == sender && d.includeKept {
      var e := d.(deleteAll := DeletesAll(pr, d));
      WantedStands(pr, decisions, e);
      assert e in wanted;
      var i :| 0 <= i < |wanted| && wanted[i] == e;
      assert targets[i] in targets;
    }
  }

  /** A message authorised by the targets of a plan is covered by a decision of it. */
  lemma AuthorisedIsCovered(c: Config, s: Server, cursors: map<Folder, Cursor>, noSource: set<string>, t: Table,
                            pr: P.Protection, decisions: seq<Entry>, targets: seq<Target>, l: Loc)
    requires targets == [] || TargetsOf(t, P.Admitted(pr, decisions), targets)
    requires Authorised(c, s, cursors, noSource, Waived(targets), AllRows(targets), l)
    ensures exists d :: Covers(pr, decisions, c, s, t, d, l)
  {
    var m :| m in AllRows(targets) && m.at == l && Cleared(c, s, m, m.sender in Waived(targets));
    hide Cleared;
    var i := P.RowInTarget(targets, m);
    var e := targets[i].entry;
    assert Scoped(t, targets[i]) && e in Wanted(P.Admitted(pr, decisions));
    WantedStands(pr, decisions, e);
    var d :| Stands(pr, decisions, d) && e == d.(deleteAll := DeletesAll(pr, d));
    WaivedIs(t, pr, decisions, targets, m.sender);
    assert Covers(pr, decisions, c, s, t, d, l);
  }

  lemma {:induction false} AllRowsHas(targets: seq<Target>, i: nat, m: Row)
    requires i < |targets| && m in targets[i].msgs
    ensures m in AllRows(targets)
    decreases |targets|
  {
    if i < |targets| - 1 { AllRowsHas(targets[..|targets| - 1], i, m); }
  }

  /** And a message covered by a decision, in a folder that may be read, is
      authorised by the targets. */
  lemma CoveredIsAuthorised(c: Config, s: Server, cursors: map<Folder, Cursor>, noSource: set<string>, t: Table,
                            pr: P.Protection, decisions: seq<Entry>, targets: seq<Target>, d: Entry, l: Loc)
    requires TargetsOf(t, P.Admitted(pr, decisions), targets)
    requires Covers(pr, decisions, c, s, t, d, l) && Readable(c, s, cursors, noSource, l.folder)
    ensures Authorised(c, s, cursors, noSource, Waived(targets), AllRows(targets), l)
  {
    hide Cleared, Readable;
    var wanted, e := Wanted(P.Admitted(pr, decisions)), d.(deleteAll := DeletesAll(pr, d));
    WantedStands(pr, decisions, e);
    var i :| 0 <= i < |wanted| && wanted[i] == e;
    assert Scoped(t, targets[i]) && t[l] in targets[i].msgs;
    AllRowsHas(targets, i, t[l]);
    WaivedIs(t, pr, decisions, targets, d.sender);
    assert t[l] in AllRows(targets) && Cleared(c, s, t[l], t[l].sender in Waived(targets));
  }

  /** Every message that a decision of the plan covers, in a folder that may be
      read, has moved and a durable line says so, unless something may have gone
      wrong with it. */
  ghost predicate DecidedAll(r: Runner, pr: P.Protection, decisions: seq<Entry>, special: seq<Folder>, s: Server, t: Table)
    reads r, r.h, r.st
  {
    forall d, l :: Covers(pr, decisions, r.c, s, t, d, l) && Answerable(r.h, r.st, l)
      && Readable(r.c, s, r.st.cursors, ProtectedFolders(r.c, r.trash, special), l.folder)
      ==> l in Sealed(r.h.world) && l !in r.h.world.server.mail
  }

  lemma AllDecided(r: Runner, pr: P.Protection, decisions: seq<Entry>, special: seq<Folder>, s: Server, t: Table,
                   targets: seq<Target>)
    requires TargetsOf(t, P.Admitted(pr, decisions), targets) && Delivered(r, s, special, targets)
    ensures DecidedAll(r, pr, decisions, special, s, t)
  {
    hide Covers, Readable, Authorised, Answerable, TargetsOf, ProtectedFolders;
    var names := ProtectedFolders(r.c, r.trash, special);
    forall d, l | Covers(pr, decisions, r.c, s, t, d, l) && Answerable(r.h, r.st, l)
        && Readable(r.c, s, r.st.cursors, names, l.folder)
      ensures l in Sealed(r.h.world) && l !in r.h.world.server.mail
    {
      CoveredIsAuthorised(r.c, s, r.st.cursors, names, t, pr, decisions, targets, d, l);
    }
  }

  /** By the moment p a command has acted on the message at l, or it is not as it was. */
  ghost predicate Reached(r: Runner, w0: World, p: History, l: Loc) {
    l in Acted(p) || (l in r.run.s0.mail && !Untouched(Origin(r.run), Replay(w0, p), l))
  }

  /** At every moment of a run of a plan, on either path, a message that a
      command has acted on, or that is not as it was, is covered by a decision
      of the plan. */
  lemma DecidedOnly(r: Runner, w0: World, before: History, es: History, t: Table, pr: P.Protection,
                    decisions: seq<Entry>, targets: seq<Target>, p: History, l: Loc)
    requires targets == [] || TargetsOf(t, P.Admitted(pr, decisions), targets)
    requires Accountable(r, w0, before, es, t, Waived(targets), AllRows(targets)) && Begins(p, es)
    requires Reached(r, w0, p, l)
    ensures exists d :: Covers(pr, decisions, r.c, w0.server, t, d, l)
  {
    hide Accountable, Authorised, Untouched, TargetsOf, Covers;
    EveryMoment(r, w0, before, es, t, Waived(targets), AllRows(targets), p, l);
    AuthorisedIsCovered(r.c, w0.server, r.st.cursors, r.noSource, t, pr, decisions, targets, l);
  }

  lemma NothingUndecided(r: Runner, w0: World, before: History, es: History, t: Table, pr: P.Protection,
                         decisions: seq<Entry>, targets: seq<Target>)
    requires targets == [] || TargetsOf(t, P.Admitted(pr, decisions), targets)
    requires Accountable(r, w0, before, es, t, Waived(targets), AllRows(targets))
    ensures forall p, l :: Begins(p, es) && Reached(r, w0, p, l) ==> exists d :: Covers(pr, decisions, r.c, w0.server, t, d, l)
  {
    hide Accountable, TargetsOf, Reached, Covers, Begins;
    forall p, l | Begins(p, es) && Reached(r, w0, p, l) ensures exists d :: Covers(pr, decisions, r.c, w0.server, t, d, l) {
      DecidedOnly(r, w0, before, es, t, pr, decisions, targets, p, l);
    }
  }

  /** A plan from its decisions to the end of its run: protection first, then the
      run of what is left. Only what an unprotected decision asks for is ever
      acted on, and the summary has every decision that was refused. */
  method ApplyPlan(r: Runner, pr: P.Protection, decisions: seq<Entry>, results: seq<Result>, special: seq<Folder>,
                   noUnsubscribe: bool, noDelete: bool)
    returns (ok: bool, ghost es: History, ghost targets: seq<Target>)
    requires Prepared(r, []) && r.reasons == map[]
    modifies r, r.au, r.h, r.st`rows
    ensures Accountable(r, old(r.h.world), old(r.h.events), es, old(r.st.rows), Waived(targets), AllRows(targets))
    ensures forall p, l :: Begins(p, es) && Reached(r, old(r.h.world), p, l) ==>
              exists d :: Covers(pr, decisions, r.c, old(r.h.world).server, old(r.st.rows), d, l)
    ensures ok ==> r.skippedSenders == P.NotedCount(pr, decisions)
    ensures ok ==> Total(r.reasons) == r.skippedSenders + r.skippedMessages && r.AddsUp(Tally(r.h.world.log))
    ensures !ok ==> old(r.MayFail())
    ensures ok ==> r.moved == |Confirmed(r.h.world.log)| && forall l <- Confirmed(r.h.world.log) :: l !in r.h.world.server.mail
    ensures ok && !noDelete && r.trashKnown ==> DecidedAll(r, pr, decisions, special, old(r.h.world.server), old(r.st.rows))
    ensures ok && !noDelete && DistinctSenders(decisions) ==> r.moved + r.skippedMessages == |AllRows(targets)|
  {
    hide Inv, Ahead, Landed, SoundThrough, Authorised, Reached, Covers, Replay, Begins, Delivered, DecidedAll, Confirmed, AllShut,
      Accountable, TargetsOf, Intents, Sealed;
    ghost var w, rows := r.h.world, r.st.rows;
    var entries, pending := P.FilterProtected(r, pr, decisions);
    P.NotesCount(pr, decisions);
    ok, es, targets := ExecuteRun(r, entries, pending, results, special, noUnsubscribe, noDelete);
    if DistinctSenders(decisions) { P.AdmittedDistinct(pr, decisions); }
    if ok && !noDelete && r.trashKnown { AllDecided(r, pr, decisions, special, w.server, rows, targets); }
    NothingUndecided(r, w, old(r.h.events), es, rows, pr, decisions, targets);
  }
}
