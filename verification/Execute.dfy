/** The delete phase as a whole: from plan entries to folders of work
    (internal/apply/phases.go), and the run around it (internal/apply/apply.go). */
module Execute {
  import opened Mailbox
  import opened Audit
  import opened Events
  import opened Moves
  import opened Host
  import opened WriteAhead
  import opened Soundness
  import opened Rules
  import opened Apply
  import opened Store

  /** One sender's decision in a plan. */
  datatype Entry = Entry(
    sender: string, address: string, unsubscribe: bool, deleteMatched: bool, deleteAll: bool, includeKept: bool)

  datatype Target = Target(entry: Entry, msgs: seq<Row>)

  predicate Deletes(e: Entry) {
    e.deleteMatched || e.deleteAll
  }

  function Wanted(entries: seq<Entry>): seq<Entry> {
    if entries == [] then []
    else
      var e := entries[|entries| - 1];
      Wanted(entries[..|entries| - 1]) + if Deletes(e) then [e] else []
  }

  lemma {:induction false} WantedHas(entries: seq<Entry>, e: Entry)
    ensures e in Wanted(entries) <==> e in entries && Deletes(e)
    decreases |entries|
  {
    if entries != [] {
      var front, last := entries[..|entries| - 1], entries[|entries| - 1];
      WantedHas(front, e);
      assert entries == front + [last];
    }
  }

  /** The sender's rows in the scope its entry asks for, each once. */
  ghost predicate Scoped(t: Table, target: Target) {
    && DistinctRows(target.msgs)
    && forall r :: r in target.msgs <==>
         r.at in t && t[r.at] == r && InScope(r, target.entry.sender, !target.entry.deleteAll)
  }

  /** One target for each entry that deletes, in plan order. */
  ghost predicate TargetsOf(t: Table, entries: seq<Entry>, targets: seq<Target>) {
    && |targets| == |Wanted(entries)|
    && forall i :: 0 <= i < |targets| ==> targets[i].entry == Wanted(entries)[i] && Scoped(t, targets[i])
  }

  method DeleteTargets(st: Store, entries: seq<Entry>) returns (ok: bool, out: seq<Target>)
    requires st.Valid()
    ensures if ok then TargetsOf(st.rows, entries, out) else st.breaks
  {
    ok, out := true, [];
    for i := 0 to |entries|
      invariant TargetsOf(st.rows, entries[..i], out)
    {
      assert entries[..i + 1][..i] == entries[..i];
      if Deletes(entries[i]) {
        var msgs;
        ok, msgs := st.MessagesForSender(entries[i].sender, !entries[i].deleteAll);
        if !ok { return; }
        out := out + [Target(entries[i], msgs)];
      }
    }
    assert entries[..|entries|] == entries;
  }

  function AllRows(targets: seq<Target>): seq<Row> {
    if targets == [] then [] else AllRows(targets[..|targets| - 1]) + targets[|targets| - 1].msgs
  }

  function InFolder(rows: seq<Row>, f: Folder): seq<Row> {
    if rows == [] then []
    else
      var r := rows[|rows| - 1];
      InFolder(rows[..|rows| - 1], f) + if r.at.folder == f then [r] else []
  }

  lemma InFolderSnoc(rows: seq<Row>, r: Row, f: Folder)
    ensures InFolder(rows + [r], f) == InFolder(rows, f) + if r.at.folder == f then [r] else []
  {
    Snoc(rows, r);
  }

  lemma {:induction false} InFolderHas(rows: seq<Row>, f: Folder)
    ensures forall r :: r in InFolder(rows, f) <==> r in rows && r.at.folder == f
    ensures DistinctRows(rows) ==> DistinctRows(InFolder(rows, f))
    decreases |rows|
  {
    if rows != [] {
      var front, last := rows[..|rows| - 1], rows[|rows| - 1];
      InFolderHas(front, f);
      assert rows == front + [last];
      if DistinctRows(rows) {
        var g := InFolder(front, f);
        forall i | 0 <= i < |g| ensures g[i].at != last.at {
          assert g[i] in g;
          var j :| 0 <= j < |front| && front[j] == g[i];
          assert rows[j].at != rows[|rows| - 1].at;
        }
      }
    }
  }

  /** The rows of targets, by folder. */
  ghost predicate Grouped(rows: seq<Row>, work: map<Folder, seq<Row>>) {
    forall f :: (f in work <==> InFolder(rows, f) != []) && (f in work ==> work[f] == InFolder(rows, f))
  }

  function AddRow(work: map<Folder, seq<Row>>, r: Row): map<Folder, seq<Row>> {
    work[r.at.folder := (if r.at.folder in work then work[r.at.folder] else []) + [r]]
  }

  lemma GroupedMore(rows: seq<Row>, work: map<Folder, seq<Row>>, r: Row)
    requires Grouped(rows, work)
    ensures Grouped(rows + [r], AddRow(work, r))
  {
    forall f ensures InFolder(rows + [r], f) == InFolder(rows, f) + if r.at.folder == f then [r] else [] {
      InFolderSnoc(rows, r, f);
    }
  }

  method AddTarget(before: map<Folder, seq<Row>>, msgs: seq<Row>, ghost rows: seq<Row>) returns (work: map<Folder, seq<Row>>)
    requires Grouped(rows, before)
    ensures Grouped(rows + msgs, work)
  {
    hide Grouped, InFolder;
    work := before;
    assert rows + msgs[..0] == rows;
    for j := 0 to |msgs|
      invariant Grouped(rows + msgs[..j], work)
    {
      GroupedMore(rows + msgs[..j], work, msgs[j]);
      assert rows + msgs[..j + 1] == rows + msgs[..j] + [msgs[j]];
      work := AddRow(work, msgs[j]);
    }
    assert msgs[..|msgs|] == msgs;
  }

  /** Groups by folder across senders, so that each folder is opened once. */
  method GroupByFolder(targets: seq<Target>) returns (work: map<Folder, seq<Row>>)
    ensures Grouped(AllRows(targets), work)
  {
    work := map[];
    for i := 0 to |targets|
      invariant Grouped(AllRows(targets[..i]), work)
    {
      Snoc(targets[..i], targets[i]);
      assert targets[..i + 1] == targets[..i] + [targets[i]];
      work := AddTarget(work, targets[i].msgs, AllRows(targets[..i]));
    }
    assert targets[..|targets|] == targets;
  }

  ghost predicate DistinctSenders(entries: seq<Entry>) {
    forall i, j :: 0 <= i < j < |entries| ==> entries[i].sender != entries[j].sender
  }

  lemma {:induction false} WantedDistinct(entries: seq<Entry>)
    requires DistinctSenders(entries)
    ensures DistinctSenders(Wanted(entries))
    ensures forall e :: e in Wanted(entries) <==> e in entries && Deletes(e)
    decreases |entries|
  {
    if entries != [] {
      var front, last := entries[..|entries| - 1], entries[|entries| - 1];
      WantedDistinct(front);
      assert entries == front + [last];
      var w := Wanted(front);
      forall i | 0 <= i < |w| ensures w[i].sender != last.sender {
        assert w[i] in w;
        var j :| 0 <= j < |front| && front[j] == w[i];
        assert entries[j].sender != entries[|entries| - 1].sender;
      }
    }
  }

  /** No message is in the work twice when no sender is in the plan twice. */
  lemma {:induction false} AllRowsDistinct(t: Table, targets: seq<Target>)
    requires forall i :: 0 <= i < |targets| ==> Scoped(t, targets[i])
    requires forall i, j :: 0 <= i < j < |targets| ==> targets[i].entry.sender != targets[j].entry.sender
    ensures DistinctRows(AllRows(targets))
    ensures forall r :: r in AllRows(targets) ==> exists i :: 0 <= i < |targets| && r in targets[i].msgs
    decreases |targets|
  {
    if targets != [] {
      var front, last := targets[..|targets| - 1], targets[|targets| - 1];
      AllRowsDistinct(t, front);
      var a, b := AllRows(front), last.msgs;
      forall r | r in a ensures exists i :: 0 <= i < |targets| && r in targets[i].msgs {
        var i :| 0 <= i < |front| && r in front[i].msgs;
        assert r in targets[i].msgs;
      }
      forall x, y | 0 <= x < |a| && 0 <= y < |b| ensures a[x].at != b[y].at {
        assert a[x] in a && b[y] in b;
        var i :| 0 <= i < |front| && a[x] in front[i].msgs;
        assert Scoped(t, targets[i]) && Scoped(t, last);
      }
      forall r | r in b ensures exists i :: 0 <= i < |targets| && r in targets[i].msgs {
        assert r in targets[|targets| - 1].msgs;
      }
    }
  }

  ghost function CountIn(rows: seq<Row>, fs: set<Folder>): nat {
    if rows == [] then 0
    else CountIn(rows[..|rows| - 1], fs) + if rows[|rows| - 1].at.folder in fs then 1 else 0
  }

  lemma {:induction false} CountInMore(rows: seq<Row>, fs: set<Folder>, f: Folder)
    requires f !in fs
    ensures CountIn(rows, fs + {f}) == CountIn(rows, fs) + |InFolder(rows, f)|
  {
    if rows != [] { CountInMore(rows[..|rows| - 1], fs, f); }
  }

  lemma {:induction false} CountInAll(rows: seq<Row>, fs: set<Folder>)
    requires forall r :: r in rows ==> r.at.folder in fs
    ensures CountIn(rows, fs) == |rows|
  {
    if rows != [] { CountInAll(rows[..|rows| - 1], fs); }
  }

  /** What the delete phase leaves true at any point where it may stop: the
      write-ahead guarantee held at every moment of it, and no command acted on
      a message before a durable line named it; every message it recorded its
      intent to move was authorised, judged against the server the phase started
      with; rows went only after their move was durably confirmed. */
  ghost predicate Accountable(r: Runner, w0: World, before: History, es: History, rows0: Table,
                              waived: set<string>, rows: seq<Row>)
    reads r, r.h, r.au, r.st
  {
    && r.Wired() && r.h.Since(w0, before, es) && w0.synced <= |w0.log|
    && SoundThrough(r.h.hasMove, r.run, w0, es)
    && (forall l <- Intents(r.h.world.log) ::
          Authorised(r.c, w0.server, r.st.cursors, r.noSource, waived, rows, l))
    && RowsDropped(rows0, r.st.rows, Sealed(r.h.world))
  }

  lemma {:induction false} BeginsReplay(w: World, p: History, es: History) returns (q: History)
    requires Begins(p, es)
    ensures es == Append(p, q) && Replay(w, es) == Replay(Replay(w, p), q)
  {
    if p == es {
      q := Start;
    } else {
      var past := BeginsReplay(w, p, es.past);
      q := Then(past, es.e);
    }
  }

  /** What that says of messages, on either path and at every moment p: one that
      a command has acted on, or that is not as it was when the run started, was
      authorised, was outside Trash, and a durable pending line had its folder,
      UID and Message-ID; one that is gone has a copy of its own in Trash; one
      that is confirmed is gone; and what is touched and not confirmed is at most
      one batch, of one folder. */
  lemma EveryMoment(r: Runner, w0: World, before: History, es: History, rows0: Table, waived: set<string>, rows: seq<Row>,
                    p: History, l: Loc)
    requires Accountable(r, w0, before, es, rows0, waived, rows) && Begins(p, es)
    ensures var w := Replay(w0, p);
      && (l in Acted(p) || (l in r.run.s0.mail && !Untouched(Origin(r.run), w, l)) ==>
            && Authorised(r.c, w0.server, r.st.cursors, r.noSource, waived, rows, l)
            && Original(r.run, l)
            && exists k :: 0 <= k < w.synced <= |w.log| && IsIntent(w.log[k]) && Loc(w.log[k].src, w.log[k].uid) == l
                           && w.log[k].id == r.run.s0.mail[l].id != "")
      && (l in r.run.s0.mail && l !in w.server.mail ==> HasCopy(Origin(r.run), w, r.trash, l))
      && (l in Confirmed(w.log) ==> l in r.run.s0.mail && l !in w.server.mail)
      && |Touched(r.run, w) - Confirmed(w.log)| <= 200 && OneFolder(Touched(r.run, w) - Confirmed(w.log))
  {
    var w := Replay(w0, p);
    hide Accountable, Authorised, Ahead, Landed, HasCopy, Untouched, OneFolder, Begins, Replay, Durable, Touched, Confirmed;
    AccountableMoment(r, w0, before, es, rows0, waived, rows, p);
    ConfirmedIsGone(r.run, w);
    if l in r.run.s0.mail && l !in w.server.mail { GoneHasCopy(r.run, w, l); }
    if l in Acted(p) || (l in r.run.s0.mail && !Untouched(Origin(r.run), w, l)) {
      TouchedIsDurable(r.run, w, l);
      var k := NamedDurably(r.run, w, l);
      assert Authorised(r.c, w0.server, r.st.cursors, r.noSource, waived, rows, l);
    }
  }

  lemma AccountableMoment(r: Runner, w0: World, before: History, es: History, rows0: Table, waived: set<string>, rows: seq<Row>,
                          p: History)
    requires Accountable(r, w0, before, es, rows0, waived, rows) && Begins(p, es)
    ensures var w := Replay(w0, p);
      && Ahead(r.run, w) && Landed(r.run, w) && Acted(p) <= Durable(w) && r.trash == r.run.trash
      && forall l <- Durable(w) :: Authorised(r.c, w0.server, r.st.cursors, r.noSource, waived, rows, l)
  {
    hide Ahead, Landed, Inv, Authorised, Durable, RowsDropped;
    MomentSound(r.h.hasMove, r.run, w0, es, p);
    forall l | l in Durable(Replay(w0, p)) ensures l in Intents(r.h.world.log) {
      IntentsLater(w0, p, es, Replay(w0, p), l);
    }
  }

  lemma TouchedIsDurable(r: Run, w: World, l: Loc)
    requires Ahead(r, w)
    ensures l in r.s0.mail && !Untouched(Origin(r), w, l) ==> l in Durable(w)
    ensures l in Durable(w) ==> Original(r, l)
  {
    TouchedNamed(r, w);
    hide Ahead, Landed, Durable;
  }

  lemma MomentSound(hasMove: bool, r: Run, w0: World, es: History, p: History)
    requires SoundThrough(hasMove, r, w0, es) && Begins(p, es)
    ensures Ahead(r, Replay(w0, p)) && Landed(r, Replay(w0, p)) && Acted(p) <= Durable(Replay(w0, p))
  {
    hide Ahead, Landed, Inv, Durable;
  }

  lemma GoneHasCopy(r: Run, w: World, l: Loc)
    requires Ahead(r, w) && l in r.s0.mail && l !in w.server.mail
    ensures !Untouched(Origin(r), w, l) && HasCopy(Origin(r), w, r.trash, l)
  {
    var k := TouchedIsRecorded(r, w, l);
  }

  lemma NamedDurably(r: Run, w: World, l: Loc) returns (k: nat)
    requires Ahead(r, w) && l in Durable(w)
    ensures k < w.synced <= |w.log| && IsIntent(w.log[k]) && Loc(w.log[k].src, w.log[k].uid) == l
    ensures l in r.s0.mail && w.log[k].id == r.s0.mail[l].id != ""
  {
    AheadOrdered(r, w);
    DurableOk(r, w.log, w.synced);
    k := IntentLine(r, w.log[..w.synced], l);
    assert w.log[k] == w.log[..w.synced][k];
  }

  lemma IntentsLater(w0: World, p: History, es: History, w: World, l: Loc)
    requires Begins(p, es) && w == Replay(w0, p) && l in Durable(w)
    ensures l in Intents(Replay(w0, es).log)
  {
    var q := BeginsReplay(w0, p, es);
    LaterLog(w, q);
    ReadPrefix(w.log, w.synced);
  }

  /** Between two folders: those in done have been worked through. */
  ghost predicate Between(r: Runner, w0: World, waived: set<string>, rows: seq<Row>, done: set<Folder>, base: Tallies)
    reads r, r.h, r.au, r.st
  {
    && r.Booked() && r.c.lower(r.trash) in r.noSource
    && Open(r.h.world.log) == {} && (forall l <- Intents(r.h.world.log) :: l.folder in done)
    && UntouchedElsewhere(w0, r.h.world, r.trash, done)
    && (DistinctRows(rows) ==> r.moved + r.skippedMessages == base.moved + base.skipped + CountIn(rows, done))
    && r.moved + |Confirmed(w0.log)| == base.moved + |Confirmed(r.h.world.log)|
    && Progress(r, w0, waived, rows, done, base.folders)
  }

  /** What there was to move in the folders done has been moved, and those
      skipped were skipped for a reason. */
  ghost predicate Progress(r: Runner, w0: World, waived: set<string>, rows: seq<Row>, done: set<Folder>, n: nat)
    reads r, r.h, r.st
  {
    && AllMoved(r.h, r.st, r.c, w0.server, r.st.cursors, r.noSource, waived, rows, done, Sealed(r.h.world))
    && AllShut(r, n)
  }

  /** Every folder skipped since there were n of them is shut for the reason given. */
  ghost predicate AllShut(r: Runner, n: nat)
    reads r, r.h, r.st
  {
    n <= |r.foldersSkipped| && forall k :: n <= k < |r.foldersSkipped| ==> r.Shut(r.foldersSkipped[k].0, r.foldersSkipped[k].1)
  }

  /** The summary's counts when the phase starts. */
  datatype Tallies = Tallies(moved: nat, skipped: nat, folders: nat)

  lemma AuthorisedAtStart(c: Config, w0: World, w: World, cursors: map<Folder, Cursor>, noSource: set<string>,
                          waived: set<string>, msgs: seq<Row>, rows: seq<Row>, dst: Folder, done: set<Folder>, l: Loc)
    requires Authorised(c, w.server, cursors, noSource, waived, msgs, l)
    requires UntouchedElsewhere(w0, w, dst, done) && l.folder !in done && l.folder != dst
    requires w.server.validity == w0.server.validity
    requires forall m :: m in msgs ==> m in rows
    ensures Authorised(c, w0.server, cursors, noSource, waived, rows, l)
  {
    var m :| m in msgs && m.at == l && Cleared(c, w.server, m, m.sender in waived);
    assert Untouched(w0, w, l);
    assert m in rows && Cleared(c, w0.server, m, m.sender in waived);
  }

  /** What the starting server authorises in a folder not reached yet is
      authorised still. */
  lemma AuthorisedStill(c: Config, w0: World, w: World, cursors: map<Folder, Cursor>, noSource: set<string>,
                        waived: set<string>, rows: seq<Row>, dst: Folder, done: set<Folder>, l: Loc)
    requires Authorised(c, w0.server, cursors, noSource, waived, rows, l)
    requires UntouchedElsewhere(w0, w, dst, done) && l.folder !in done && l.folder != dst
    requires w.server.validity == w0.server.validity
    ensures Authorised(c, w.server, cursors, noSource, waived, InFolder(rows, l.folder), l)
  {
    var m :| m in rows && m.at == l && Cleared(c, w0.server, m, m.sender in waived);
    InFolderHas(rows, l.folder);
    assert Untouched(w0, w, l);
    assert Cleared(c, w.server, m, m.sender in waived);
  }

  lemma FolderMoved(r: Runner, w0: World, w: World, waived: set<string>, rows: seq<Row>, f: Folder, done: set<Folder>,
                    sealed1: set<Loc>, sealed2: set<Loc>)
    requires AllMoved(r.h, r.st, r.c, w0.server, r.st.cursors, r.noSource, waived, rows, done, sealed1) && sealed1 <= sealed2
    requires AllMoved(r.h, r.st, r.c, w.server, r.st.cursors, r.noSource, waived, InFolder(rows, f), {f}, sealed2)
    requires UntouchedElsewhere(w0, w, r.trash, done) && f !in done && r.c.lower(r.trash) in r.noSource
    requires w.server.validity == w0.server.validity
    ensures AllMoved(r.h, r.st, r.c, w0.server, r.st.cursors, r.noSource, waived, rows, done + {f}, sealed2)
  {
    hide Cleared, UntouchedElsewhere, Answerable;
    InFolderHas(rows, f);
    if OneRowEach(rows) {
      forall l: Loc | l.folder in done + {f} && Answerable(r.h, r.st, l)
                      && Authorised(r.c, w0.server, r.st.cursors, r.noSource, waived, rows, l)
        ensures l in sealed2
      {
        if l.folder == f {
          AuthorisedStill(r.c, w0, w, r.st.cursors, r.noSource, waived, rows, r.trash, done, l);
        }
      }
    }
  }

  /** The effect of one folder on what is known of the phase. */
  lemma FolderAccounted(r: Runner, w0: World, w: World, log1: seq<Line>, waived: set<string>, rows: seq<Row>,
                        f: Folder, done: set<Folder>)
    requires forall l <- Intents(log1) :: Authorised(r.c, w0.server, r.st.cursors, r.noSource, waived, rows, l)
    requires UntouchedElsewhere(w0, w, r.trash, done) && f !in done && r.c.lower(r.trash) in r.noSource
    requires w.server.validity == w0.server.validity
    requires forall l <- Intents(r.h.world.log) :: l in Intents(log1) ||
               (l.folder == f && Authorised(r.c, w.server, r.st.cursors, r.noSource, waived, InFolder(rows, f), l))
    ensures forall l <- Intents(r.h.world.log) :: Authorised(r.c, w0.server, r.st.cursors, r.noSource, waived, rows, l)
  {
    InFolderHas(rows, f);
    forall l | l in Intents(r.h.world.log) && l !in Intents(log1)
      ensures Authorised(r.c, w0.server, r.st.cursors, r.noSource, waived, rows, l)
    {
      AuthorisedAtStart(r.c, w0, w, r.st.cursors, r.noSource, waived, InFolder(rows, f), rows, r.trash, done, l);
    }
  }

  lemma UntouchedFolders(w0: World, w: World, w': World, dst: Folder, done: set<Folder>, f: Folder)
    requires UntouchedElsewhere(w0, w, dst, done) && UntouchedElsewhere(w, w', dst, {f})
    ensures UntouchedElsewhere(w0, w', dst, done + {f})
  {
  }

  lemma RowsDroppedMore(rows0: Table, rows1: Table, rows2: Table, sealed1: set<Loc>, sealed2: set<Loc>)
    requires RowsDropped(rows0, rows1, sealed1) && RowsDropped(rows1, rows2, sealed2) && sealed1 <= sealed2
    ensures RowsDropped(rows0, rows2, sealed2)
  {
  }

  /** The next folder may be worked on. */
  lemma MayEnter(r: Runner, w0: World, before: History, es: History, rows0: Table, waived: set<string>, rows: seq<Row>,
                 done: set<Folder>, base: Tallies, f: Folder)
    requires Accountable(r, w0, before, es, rows0, waived, rows) && Between(r, w0, waived, rows, done, base) && f !in done
    ensures Sound(r.h.hasMove, r.run, r.h.world) && Open(r.h.world.log) == {}
    ensures forall l <- Intents(r.h.world.log) :: l.folder != f
    ensures forall m <- InFolder(rows, f) :: m.at.folder == f
    ensures DistinctRows(rows) ==> DistinctRows(InFolder(rows, f))
  {
    hide Sound, SoundThrough, Replay, Intents, Open, Authorised, Progress;
    SoundNow(r.h.hasMove, r.run, w0, es);
    InFolderHas(rows, f);
  }

  method NextFolder(r: Runner, f: Folder, waived: set<string>, msgs: seq<Row>, ghost rows: seq<Row>, ghost w0: World,
                    ghost before: History, ghost es0: History, ghost rows0: Table, ghost done: set<Folder>, ghost base: Tallies)
    returns (ok: bool, ghost es: History)
    requires Accountable(r, w0, before, es0, rows0, waived, rows) && Between(r, w0, waived, rows, done, base)
    requires f !in done && msgs == InFolder(rows, f)
    modifies r, r.au, r.h, r.st`rows
    ensures Accountable(r, w0, before, es, rows0, waived, rows) && r.noSource == old(r.noSource)
      && r.unsub == old(r.unsub) && r.skippedSenders == old(r.skippedSenders)
    ensures r.FailedBy(old(r.au.failed))
    ensures if ok then Between(r, w0, waived, rows, done + {f}, base) else old(r.MayFail())
  {
    hide Inv, Ahead, Landed, SoundThrough, ServerOk, Replay, LegalRun, Step, Authorised, UntouchedElsewhere, Sealed,
      AllMoved, Confirmed, Intents, Open, Tally, InFolder, CountIn, OneRowEach, RowsDropped, Untouched, NothingNew;
    ghost var w, log1, rows1 := r.h.world, r.h.world.log, r.st.rows;
    MayEnter(r, w0, before, es0, rows0, waived, rows, done, base, f);
    CountInMore(rows, done, f);
    ghost var b;
    ok, b := r.DeleteFolder(f, msgs, waived);
    es := Append(es0, b);
    SinceAppend(r.h, w0, before, es0, b);
    UntouchedFolders(w0, w, r.h.world, r.trash, done, f);
    FolderAccounted(r, w0, w, log1, waived, rows, f, done);
    LaterLog(w, b);
    RowsDroppedMore(rows0, rows1, r.st.rows, Sealed(w), Sealed(r.h.world));
    SoundThroughAppend(r.h.hasMove, r.run, w0, es0, b);
    if ok { FolderMoved(r, w0, w, waived, rows, f, done, Sealed(w), Sealed(r.h.world)); }
  }

  /** The senders whose entries waive the transactional rule. */
  function Waived(targets: seq<Target>): set<string> {
    set t | t in targets && t.entry.includeKept :: t.entry.sender
  }

  /** The names a delete never reads from: the well-known ones, the resolved
      Trash, and what the server marks special-use, as far as the lookups found. */
  function ProtectedFolders(c: Config, trash: Folder, special: seq<Folder>): (names: set<string>)
    ensures NEVER_SOURCE <= names && c.lower(trash) in names
    ensures forall f :: f in special && f != NOWHERE ==> c.lower(f) in names
    ensures forall n <- names :: n in NEVER_SOURCE || n == c.lower(trash) || exists f :: f in special && f != NOWHERE && n == c.lower(f)
  {
    NEVER_SOURCE + {c.lower(trash)} + set f | f in special && f != NOWHERE :: c.lower(f)
  }

  lemma AccountableStart(r: Runner, waived: set<string>, rows: seq<Row>)
    requires r.Wired() && Intents(r.h.world.log) == {} && Sound(r.h.hasMove, r.run, r.h.world)
    ensures Accountable(r, r.h.world, r.h.events, Start, r.st.rows, waived, rows)
  {
    hide Ahead, Landed, Inv;
  }

  /** Skips every message of one target. */
  method SkipRows(r: Runner, msgs: seq<Row>) returns (ghost es: History)
    requires r.Wired() && r.Booked()
    modifies r, r.au, r.h
    ensures r.Wired() && r.Booked() && r.h.Did(es) && LogsOnly(es)
    ensures r.moved == old(r.moved) && r.skippedMessages == old(r.skippedMessages) + |msgs|
    ensures forall k :: At(r.reasons, k) == At(old(r.reasons), k) + if k == "no trash folder" then |msgs| else 0
    ensures r.skippedSenders == old(r.skippedSenders) && r.unsub == old(r.unsub) && r.foldersSkipped == old(r.foldersSkipped)
    ensures r.FailedBy(old(r.au.failed))
  {
    es := Start;
    ghost var w, before := r.h.world, r.h.events;
    for i := 0 to |msgs|
      invariant r.Wired() && r.Booked() && r.h.Since(w, before, es) && LogsOnly(es)
      invariant r.moved == old(r.moved) && r.skippedMessages == old(r.skippedMessages) + i
      invariant forall k :: At(r.reasons, k) == At(old(r.reasons), k) + if k == "no trash folder" then i else 0
      invariant r.skippedSenders == old(r.skippedSenders) && r.unsub == old(r.unsub) && r.foldersSkipped == old(r.foldersSkipped)
      invariant r.FailedBy(old(r.au.failed))
    {
      ghost var b := r.SkipMessage(REASON_NO_TRASH, msgs[i].at, msgs[i].id, msgs[i].sender);
      SinceAppend(r.h, w, before, es, b);
      AppendLogsOnly(es, b);
      es := Append(es, b);
    }
  }

  method SkipTargets(r: Runner, targets: seq<Target>) returns (ghost es: History)
    requires r.Wired() && r.Booked()
    modifies r, r.au, r.h
    ensures r.Wired() && r.Booked() && r.h.Did(es) && LogsOnly(es)
    ensures r.moved == old(r.moved) && r.skippedMessages == old(r.skippedMessages) + |AllRows(targets)|
    ensures forall k :: At(r.reasons, k) == At(old(r.reasons), k) + if k == "no trash folder" then |AllRows(targets)| else 0
    ensures r.skippedSenders == old(r.skippedSenders) && r.unsub == old(r.unsub) && r.foldersSkipped == old(r.foldersSkipped)
    ensures r.FailedBy(old(r.au.failed))
  {
    es := Start;
    ghost var w, before := r.h.world, r.h.events;
    for i := 0 to |targets|
      invariant r.Wired() && r.Booked() && r.h.Since(w, before, es) && LogsOnly(es)
      invariant r.moved == old(r.moved)
      invariant r.skippedMessages == old(r.skippedMessages) + |AllRows(targets[..i])|
      invariant forall k :: At(r.reasons, k) == At(old(r.reasons), k) + if k == "no trash folder" then |AllRows(targets[..i])| else 0
      invariant r.skippedSenders == old(r.skippedSenders) && r.unsub == old(r.unsub) && r.foldersSkipped == old(r.foldersSkipped)
      invariant r.FailedBy(old(r.au.failed))
    {
      assert targets[..i + 1][..i] == targets[..i];
      ghost var b := SkipRows(r, targets[i].msgs);
      SinceAppend(r.h, w, before, es, b);
      AppendLogsOnly(es, b);
      es := Append(es, b);
    }
    assert targets[..|targets|] == targets;
  }

  /** Every message the targets, the rules and the starting server let a delete
      move has been moved: a durable line says so and it is gone from its place,
      unless something may have gone wrong with it. */
  ghost predicate Delivered(r: Runner, s0: Server, special: seq<Folder>, targets: seq<Target>)
    reads r, r.h, r.st
  {
    forall l: Loc {:trigger Answerable(r.h, r.st, l)} ::
      (Authorised(r.c, s0, r.st.cursors, ProtectedFolders(r.c, r.trash, special), Waived(targets), AllRows(targets), l)
       && Answerable(r.h, r.st, l)) ==> l in Sealed(r.h.world) && l !in r.h.world.server.mail
  }

  lemma {:induction false} AllRowsFrom(t: Table, targets: seq<Target>, m: Row)
    requires (forall i :: 0 <= i < |targets| ==> Scoped(t, targets[i])) && m in AllRows(targets)
    ensures m.at in t && t[m.at] == m
  {
    var n := |targets| - 1;
    if m in targets[n].msgs {
      assert Scoped(t, targets[n]);
    } else {
      AllRowsFrom(t, targets[..n], m);
    }
  }

  lemma RowsAreOne(t: Table, entries: seq<Entry>, targets: seq<Target>)
    requires TargetsOf(t, entries, targets)
    ensures OneRowEach(AllRows(targets))
  {
    hide Scoped;
    forall m | m in AllRows(targets) ensures m.at in t && t[m.at] == m {
      AllRowsFrom(t, targets, m);
    }
  }

  lemma IsDelivered(r: Runner, s0: Server, special: seq<Folder>, targets: seq<Target>, work: map<Folder, seq<Row>>,
                    before: History, es: History, w0: World, rows0: Table)
    requires AllMoved(r.h, r.st, r.c, s0, r.st.cursors, r.noSource, Waived(targets), AllRows(targets), work.Keys,
        Sealed(r.h.world))
    requires OneRowEach(AllRows(targets)) && Grouped(AllRows(targets), work)
    requires r.noSource == ProtectedFolders(r.c, r.trash, special)
    requires Accountable(r, w0, before, es, rows0, Waived(targets), AllRows(targets))
    ensures Delivered(r, s0, special, targets)
  {
    hide Answerable, Readable, Cleared, ProtectedFolders, Accountable, Sealed;
    AllConfirmedGone(r, w0, before, es, rows0, Waived(targets), AllRows(targets));
    forall l: Loc | Authorised(r.c, s0, r.st.cursors, ProtectedFolders(r.c, r.trash, special), Waived(targets),
        AllRows(targets), l)
                    && Answerable(r.h, r.st, l)
      ensures l in Sealed(r.h.world) && l !in r.h.world.server.mail
    {
      var m :| m in AllRows(targets) && m.at == l;
      InFolderHas(AllRows(targets), l.folder);
      assert m in InFolder(AllRows(targets), l.folder);
    }
  }

  lemma AllConfirmedGone(r: Runner, w0: World, before: History, es: History, rows0: Table, waived: set<string>, rows: seq<Row>)
    requires Accountable(r, w0, before, es, rows0, waived, rows)
    ensures forall l <- Confirmed(r.h.world.log) :: l !in r.h.world.server.mail
    ensures Sealed(r.h.world) <= Confirmed(r.h.world.log)
  {
    hide SoundThrough, Landed, Authorised, RowsDropped, Inv;
    var w := r.h.world;
    SoundNow(r.h.hasMove, r.run, w0, es);
    AheadOrdered(r.run, w);
    ReadPrefix(w.log, w.synced);
  }

  lemma NoneDelivered(r: Runner, s0: Server, special: seq<Folder>)
    ensures Delivered(r, s0, special, [])
  {
  }

  lemma ProgressStart(r: Runner, w0: World, waived: set<string>, rows: seq<Row>)
    ensures Progress(r, w0, waived, rows, {}, |r.foldersSkipped|)
  {
  }

  /** Moves every eligible message to Trash, folder by folder. */
  method DeleteAll(r: Runner, entries: seq<Entry>, special: seq<Folder>)
    returns (ok: bool, ghost es: History, ghost targets: seq<Target>)
    requires r.Wired() && r.Booked() && Open(r.h.world.log) == {} && Intents(r.h.world.log) == {}
    requires Sound(r.h.hasMove, r.run, r.h.world)
    modifies r, r.au, r.h, r.st`rows
    ensures Accountable(r, old(r.h.world), old(r.h.events), es, old(r.st.rows), Waived(targets), AllRows(targets))
    ensures Intents(r.h.world.log) == {} || r.noSource == ProtectedFolders(r.c, r.trash, special)
    ensures r.unsub == old(r.unsub) && r.skippedSenders == old(r.skippedSenders)
    ensures targets == [] || TargetsOf(old(r.st.rows), entries, targets)
    ensures if ok then r.Booked() && TargetsOf(old(r.st.rows), entries, targets) else old(r.MayFail())
    // with a Trash every message that may be moved has been, and without one none
    ensures ok && r.trashKnown ==> Delivered(r, old(r.h.world.server), special, targets)
    ensures !r.trashKnown ==> r.h.world.server == old(r.h.world.server)
    ensures ok && !r.trashKnown ==>
              forall k :: At(r.reasons, k) == At(old(r.reasons), k) + if k == "no trash folder" then |AllRows(targets)| else 0
    ensures ok ==> r.MovedIsConfirmed() && AllShut(r, old(|r.foldersSkipped|))
    ensures r.FailedBy(old(r.au.failed))
    ensures ok && DistinctSenders(entries) ==>
              r.moved + r.skippedMessages == old(r.moved + r.skippedMessages) + |AllRows(targets)|
  {
    hide Inv, Ahead, Landed, SoundThrough, ServerOk, Step, Legal, Tally, Authorised, Grouped, Scoped, ProtectedFolders,
      AllMoved, Delivered, Confirmed, Intents, Open, Sealed;
    ghost var w0, before, rows0 := r.h.world, r.h.events, r.st.rows;
    es, targets := Start, [];
    AccountableStart(r, {}, []);
    var found;
    ok, found := DeleteTargets(r.st, entries);
    if !ok { return; }
    targets := found;
    AccountableStart(r, Waived(targets), AllRows(targets));
    RowsAreOne(rows0, entries, targets);
    if found == [] {
      NoneDelivered(r, w0.server, special);
      return;
    }
    if !r.trashKnown {
      es := SkipTargets(r, found);
      LogsOnlyKeeps(w0, es);
      SoundLogsOnly(r.h.hasMove, r.run, w0, es);
      return;
    }
    r.noSource := ProtectedFolders(r.c, r.trash, special);
    var work := GroupByFolder(found);
    ok, es := DeleteFolders(r, work, Waived(found), AllRows(found));
    if ok {
      IsDelivered(r, w0.server, special, targets, work, before, es, w0, rows0);
    }
    if DistinctSenders(entries) {
      WantedDistinct(entries);
      AllRowsDistinct(rows0, targets);
    }
  }

  /** Works through the folders one at a time (in the order of their names). */
  method DeleteFolders(r: Runner, work: map<Folder, seq<Row>>, waived: set<string>, ghost rows: seq<Row>)
    returns (ok: bool, ghost es: History)
    requires r.Wired() && r.Booked() && Open(r.h.world.log) == {} && Intents(r.h.world.log) == {}
    requires Sound(r.h.hasMove, r.run, r.h.world)
    requires r.c.lower(r.trash) in r.noSource && Grouped(rows, work)
    modifies r, r.au, r.h, r.st`rows
    ensures Accountable(r, old(r.h.world), old(r.h.events), es, old(r.st.rows), waived, rows)
    ensures r.noSource == old(r.noSource) && r.unsub == old(r.unsub) && r.skippedSenders == old(r.skippedSenders)
    ensures if ok then r.Booked() && r.MovedIsConfirmed() && AllShut(r, old(|r.foldersSkipped|))
                    && AllMoved(r.h, r.st, r.c, old(r.h.world.server), r.st.cursors, r.noSource, waived, rows,
                        work.Keys, Sealed(r.h.world))
            else old(r.MayFail())
    ensures r.FailedBy(old(r.au.failed))
    ensures ok && DistinctRows(rows) ==> r.moved + r.skippedMessages == old(r.moved + r.skippedMessages) + |rows|
  {
    hide Inv, Ahead, Landed, SoundThrough, ServerOk, Authorised, Sealed, Confirmed, Intents, Open, AllMoved;
    ghost var w0, before, rows0, base := r.h.world, r.h.events, r.st.rows,
        Tallies(r.moved, r.skippedMessages, |r.foldersSkipped|);
    es, ok := Start, true;
    AccountableStart(r, waived, rows);
    ProgressStart(r, w0, waived, rows);
    CountInNone(rows);
    var todo := work.Keys;
    assert work.Keys - todo == {};
    while todo != {}
      invariant todo <= work.Keys && r.noSource == old(r.noSource) && r.unsub == old(r.unsub)
          && r.skippedSenders == old(r.skippedSenders)
      invariant Accountable(r, w0, before, es, rows0, waived, rows)
      invariant Between(r, w0, waived, rows, work.Keys - todo, base) && r.FailedBy(old(r.au.failed))
    {
      var cancelled := r.h.Breaks();
      if cancelled { return false, es; }
      var f :| f in todo;
      assert work.Keys - (todo - {f}) == work.Keys - todo + {f};
      ok, es := NextFolder(r, f, waived, work[f], rows, w0, before, es, rows0, work.Keys - todo, base);
      if !ok { return; }
      todo := todo - {f};
    }
    forall m | m in rows ensures m.at.folder in work.Keys - todo {
      InFolderHas(rows, m.at.folder);
    }
    CountInAll(rows, work.Keys - todo);
    assert work.Keys - todo == work.Keys;
  }

  lemma {:induction false} CountInNone(rows: seq<Row>)
    ensures CountIn(rows, {}) == 0
  {
    if rows != [] { CountInNone(rows[..|rows| - 1]); }
  }
}
