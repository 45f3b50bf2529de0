/** The incremental header scan of one folder (internal/scan/scan.go): cursor,
    UIDVALIDITY, 32-bit UID chunks, and what an interrupted scan leaves. */
module Scan {
  import opened Mailbox
  import opened Store

  newtype uint32 = n: int | 0 <= n < 0x1_0000_0000

  const DEFAULT_CHUNK_SIZE := 500
  const MAX_UID: uint32 := 0xFFFF_FFFF

  /** A mailbox as it stands while it is scanned: the UIDs it has, those whose
      headers parse, the row each message of interest makes, and whether the
      session may break off. */
  datatype View = View(
    folder: Folder, validity: uint32, uidNext: uint32, uids: set<nat>, heard: set<nat>, rows: Table, breaks: bool)

  method Breaks(v: View) returns (broken: bool)
    ensures broken ==> v.breaks
  {
    broken := *;
    broken := broken && v.breaks;
  }

  ghost predicate ViewOk(v: View) {
    && v.heard <= v.uids
    && (forall u <- v.uids :: 0 < u <= MAX_UID as nat && (v.uidNext != 0 ==> u < v.uidNext as nat))
    && forall l <- v.rows :: l.folder == v.folder && l.uid in v.heard && v.rows[l].at == l
  }

  ghost predicate DbOk(d: Db) {
    && TableOk(d.rows)
    && forall f <- d.cursors :: d.cursors[f].validity <= MAX_UID as nat && d.cursors[f].last <= MAX_UID as nat
  }

  predicate NeedsReset(stored: uint32, current: uint32) {
    stored != 0 && stored != current
  }

  /** The last UID of the chunk that starts at lo. */
  function ChunkHi(lo: uint32, maxUid: uint32, size: int): (hi: uint32)
    requires 0 < lo <= maxUid
    ensures lo <= hi <= maxUid
    ensures hi < maxUid ==> hi as int - lo as int + 1 == if size <= 0 then DEFAULT_CHUNK_SIZE else size
  {
    var n := if size <= 0 then DEFAULT_CHUNK_SIZE else size;
    if lo as int + n - 1 < maxUid as int then lo + n as uint32 - 1 else maxUid
  }

  /** The rows of the messages with lo < UID <= hi. */
  ghost function Span(v: View, lo: nat, hi: nat): Table {
    map l | l in v.rows && lo < l.uid <= hi :: v.rows[l]
  }

  ghost function RowsOf(v: View, uids: set<nat>): Table {
    map l | l in v.rows && l.uid in uids :: v.rows[l]
  }

  /** The database and the cursor a scan starts from: a stored UIDVALIDITY that
      is not the mailbox's throws the folder's rows and cursor away. */
  ghost function Opened(d: Db, v: View): (Db, nat) {
    if v.folder !in d.cursors then (d, 0)
    else if d.cursors[v.folder].validity != 0 && d.cursors[v.folder].validity != v.validity as nat then
      (Db(map l | l in d.rows && l.folder != v.folder :: d.rows[l],
          d.cursors[v.folder := Cursor(v.validity as nat, 0)]), 0)
    else (d, d.cursors[v.folder].last)
  }

  /** The last UID there is, if there is one. */
  function Last(v: View): set<nat> {
    set u | u in v.uids && (forall x <- v.uids :: x <= u)
  }

  /** What lo:* names: the UIDs from lo up, or if there are none the last one;
      0 stands for * itself (section 6.4.8 of RFC 9051). */
  function OpenSet(v: View, lo: nat): set<nat> {
    if AtLeast(v, lo) != {} then AtLeast(v, lo) else Last(v)
  }

  function AtLeast(v: View, lo: nat): set<nat> {
    set u | u in v.uids && 0 < lo <= u
  }

  /** The highest of the UIDs, but at least floor. */
  ghost function MaxFrom(uids: set<nat>, floor: nat): (top: nat)
    ensures floor <= top && (forall u <- uids :: u <= top) && (top == floor || top in uids)
  {
    if uids == {} then floor
    else
      var u :| u in uids;
      var rest := MaxFrom(uids - {u}, floor);
      assert forall x <- uids :: x == u || x in uids - {u};
      if u <= rest then rest else u
  }

  /** Where the open range starts: one past the cursor, in 32 bits. */
  function OpenFrom(last: nat): nat {
    if last == MAX_UID as nat then 0 else last + 1
  }

  /** The database after a whole scan of the folder. */
  ghost function Result(d: Db, v: View): Db {
    var (o, last) := Opened(d, v);
    if v.uidNext != 0 then Swept(o, v, last, v.uidNext as nat - 1) else SweptOpen(o, v, last)
  }

  /** Everything from the cursor up to top. */
  ghost function Swept(o: Db, v: View, last: nat, top: nat): Db {
    if top <= last then o
    else Db(o.rows + Span(v, last, top), o.cursors[v.folder := Cursor(v.validity as nat, top)])
  }

  /** Everything from the cursor up, when the server did not say where it ends. */
  ghost function SweptOpen(o: Db, v: View, last: nat): Db {
    var got := OpenSet(v, OpenFrom(last)) * v.heard;
    var top := MaxFrom(got, last);
    Db(o.rows + RowsOf(v, got), if last < top then o.cursors[v.folder := Cursor(v.validity as nat, top)] else o.cursors)
  }

  ghost function DbOf(st: Store): Db
    reads st
  {
    Db(st.rows, st.cursors)
  }

  /** The rows msgs are those of the UIDs in uids. */
  ghost predicate Collected(v: View, uids: set<nat>, msgs: seq<Row>) {
    forall r :: r in msgs <==> r.at in v.rows && v.rows[r.at] == r && r.at.uid in uids
  }

  /** The rows of v that msgs lists. */
  ghost function Listed(v: View, msgs: seq<Row>): Table {
    map l | l in v.rows && v.rows[l] in msgs :: v.rows[l]
  }

  lemma {:induction false} InsertedListed(v: View, t: Table, msgs: seq<Row>)
    requires ViewOk(v) && forall r <- msgs :: r.at in v.rows && v.rows[r.at] == r
    ensures Inserted(t, msgs) == t + Listed(v, msgs)
    decreases |msgs|
  {
    if msgs == [] {
      assert t + Listed(v, msgs) == t;
    } else {
      var front, last := msgs[..|msgs| - 1], msgs[|msgs| - 1];
      InsertedListed(v, t, front);
      ListedMore(v, front, last);
      assert msgs == front + [last];
      hide Listed;
      assert t + Listed(v, front)[last.at := last] == (t + Listed(v, front))[last.at := last];
    }
  }

  lemma ListedMore(v: View, msgs: seq<Row>, r: Row)
    requires ViewOk(v) && r.at in v.rows && v.rows[r.at] == r
    ensures Listed(v, msgs + [r]) == Listed(v, msgs)[r.at := r]
  {
  }

  lemma InsertedRows(v: View, t: Table, uids: set<nat>, msgs: seq<Row>)
    requires ViewOk(v) && Collected(v, uids, msgs)
    ensures Inserted(t, msgs) == t + RowsOf(v, uids)
  {
    InsertedListed(v, t, msgs);
    assert Listed(v, msgs) == RowsOf(v, uids);
  }

  lemma MaxIs(uids: set<nat>, floor: nat, top: nat)
    requires floor <= top && (forall u <- uids :: u <= top) && (top == floor || top in uids)
    ensures top == MaxFrom(uids, floor)
  {
  }

  /** UID FETCH of the headers of the messages want, which arrive in any order
      and may stop after any of them. */
  method FetchHeaders(v: View, want: set<nat>, floor: nat) returns (ok: bool, msgs: seq<Row>, maxSeen: nat)
    requires ViewOk(v) && want <= v.uids
    ensures if ok then Collected(v, want * v.heard, msgs) && maxSeen == MaxFrom(want * v.heard, floor) else v.breaks
  {
    ok, msgs, maxSeen := true, [], floor;
    var rest := want * v.heard;
    ghost var done: set<nat> := {};
    while rest != {}
      invariant done + rest == want * v.heard
      invariant Collected(v, done, msgs)
      invariant floor <= maxSeen && (forall u <- done :: u <= maxSeen)
      invariant maxSeen == floor || maxSeen in done
    {
      var broken := Breaks(v);
      if broken { return false, msgs, maxSeen; }
      var u :| u in rest;
      if u > maxSeen { maxSeen := u; }
      var l := Loc(v.folder, u);
      ghost var before := msgs;
      if l in v.rows { msgs := msgs + [v.rows[l]]; }
      assert forall r :: r in msgs <==> r in before || (l in v.rows && r == v.rows[l]);
      rest, done := rest - {u}, done + {u};
    }
    MaxIs(want * v.heard, floor, maxSeen);
    var late := Breaks(v);
    ok := !late;
  }

  /** What a scan leaves at any moment: a whole scan from there ends just as a
      whole scan from the start would have. */
  ghost predicate Resumable(d: Db, v: View, d': Db) {
    DbOk(d') && Result(d', v) == Result(d, v)
  }

  lemma SpanJoin(t: Table, v: View, last: nat, mid: nat, hi: nat, top: nat)
    requires last <= mid <= hi <= top
    ensures (t + Span(v, last, hi)) + Span(v, mid, top) == t + Span(v, last, top)
  {
  }

  lemma SpanEmpty(t: Table, v: View, last: nat, hi: nat)
    requires hi <= last
    ensures t + Span(v, last, hi) == t
  {
  }

  lemma ResultFrom(o: Db, v: View, last: nat)
    requires Opened(o, v) == (o, last) && v.uidNext != 0
    ensures Result(o, v) == Swept(o, v, last, v.uidNext as nat - 1)
  {
  }

  /** The rows and the cursor of a scan in progress, and the cursor's due. */
  lemma StillOpen(o: Db, v: View, last: nat, rows: Table, at: nat)
    requires ViewOk(v) && DbOk(o) && Opened(o, v) == (o, last) && TableOk(rows) && at <= MAX_UID as nat
    ensures var d := Db(rows, o.cursors); DbOk(d) && Opened(d, v) == (d, last)
    ensures var d := Db(rows, o.cursors[v.folder := Cursor(v.validity as nat, at)]); DbOk(d) && Opened(d, v) == (d, at)
  {
  }

  lemma SpanOk(v: View, t: Table, last: nat, hi: nat)
    requires ViewOk(v) && TableOk(t)
    ensures TableOk(t + Span(v, last, hi))
  {
  }

  /** Rows the scan was going to write anyway do not matter. */
  lemma InsertResumable(o: Db, v: View, last: nat, hi: nat)
    requires ViewOk(v) && DbOk(o) && Opened(o, v) == (o, last) && v.uidNext != 0 && hi <= v.uidNext as nat - 1
    ensures Resumable(o, v, Db(o.rows + Span(v, last, hi), o.cursors))
  {
    hide Result, Opened, Span, ViewOk;
    var d, top := Db(o.rows + Span(v, last, hi), o.cursors), v.uidNext as nat - 1;
    SpanOk(v, o.rows, last, hi);
    StillOpen(o, v, last, d.rows, 0);
    ResultFrom(o, v, last);
    ResultFrom(d, v, last);
    if hi <= last { SpanEmpty(o.rows, v, last, hi); } else { SpanJoin(o.rows, v, last, last, hi, top); }
  }

  /** With a chunk's rows written, its cursor may be written too. */
  lemma CursorResumable(o: Db, v: View, last: nat, hi: nat)
    requires ViewOk(v) && DbOk(o) && Opened(o, v) == (o, last) && v.uidNext != 0 && last < hi <= v.uidNext as nat - 1
    ensures Resumable(o, v, Swept(o, v, last, hi)) && Opened(Swept(o, v, last, hi), v) == (Swept(o, v, last, hi), hi)
  {
    hide Result, Opened, Span, ViewOk;
    var d, top := Swept(o, v, last, hi), v.uidNext as nat - 1;
    SpanOk(v, o.rows, last, hi);
    StillOpen(o, v, last, d.rows, hi);
    ResultFrom(o, v, last);
    ResultFrom(d, v, hi);
    if hi < top { SpanJoin(o.rows, v, last, hi, hi, top); }
    assert d.cursors[v.folder := Cursor(v.validity as nat, top)] == o.cursors[v.folder := Cursor(v.validity as nat, top)];
  }

  /** Throwing a stale folder away is a beginning of the scan. */
  lemma OpenedResumable(d: Db, v: View)
    requires ViewOk(v) && DbOk(d)
    ensures Resumable(d, v, Opened(d, v).0) && Opened(Opened(d, v).0, v) == Opened(d, v)
  {
  }

  /** The chunks of a scan follow on from each other from lo to hi. */
  ghost predicate Tiles(chunks: seq<(nat, nat)>, lo: int, hi: int) {
    if chunks == [] then lo == hi + 1
    else
      var c := chunks[|chunks| - 1];
      lo <= c.0 <= c.1 == hi && Tiles(chunks[..|chunks| - 1], lo, c.0 as int - 1)
  }

  /** So each UID from lo to hi is in exactly one of them, and no other is in any. */
  lemma {:induction false} TilesExactly(chunks: seq<(nat, nat)>, lo: int, hi: int, u: nat)
    requires Tiles(chunks, lo, hi)
    ensures |set i | 0 <= i < |chunks| && chunks[i].0 <= u <= chunks[i].1| == if lo <= u <= hi then 1 else 0
    decreases |chunks|
  {
    var hits := set i | 0 <= i < |chunks| && chunks[i].0 <= u <= chunks[i].1;
    if chunks != [] {
      var n := |chunks| - 1;
      var front, c := chunks[..n], chunks[n];
      TilesExactly(front, lo, c.0 as int - 1, u);
      assert hits == (set i | 0 <= i < |front| && front[i].0 <= u <= front[i].1) + if c.0 <= u <= c.1 then {n} else {};
    }
  }

  /** Every database a scan passed through, so that a crash would leave one of
      them, is one it can resume from. */
  ghost predicate AllResumable(d: Db, v: View, passed: seq<Db>) {
    forall p <- passed :: Resumable(d, v, p)
  }

  lemma ResumableMore(d: Db, v: View, a: Db, passed: seq<Db>, more: seq<Db>)
    requires Resumable(d, v, a) && AllResumable(d, v, passed) && AllResumable(a, v, more)
    ensures AllResumable(d, v, passed + more)
  {
  }

  /** The rows of one chunk; t is the table they are for. */
  method FetchChunk(v: View, lo: uint32, hi: uint32, ghost t: Table) returns (ok: bool, msgs: seq<Row>)
    requires ViewOk(v) && 0 < lo <= hi
    ensures if ok then Inserted(t, msgs) == t + Span(v, lo as nat - 1, hi as nat) else v.breaks
  {
    var want := set u | u in v.uids && lo as nat <= u <= hi as nat;
    var top;
    ok, msgs, top := FetchHeaders(v, want, 0);
    if ok { ChunkRows(v, t, want, lo as nat - 1, hi as nat, msgs); }
  }

  /** The end of each chunk was written as the cursor. */
  ghost predicate Marked(v: View, passed: seq<Db>, chunks: seq<(nat, nat)>) {
    forall c <- chunks :: exists p <- passed :: v.folder in p.cursors && p.cursors[v.folder] == Cursor(v.validity as nat, c.1)
  }

  /** One chunk: fetch, one transaction for the rows, one for the cursor. */
  method ScanChunk(st: Store, v: View, lo: uint32, hi: uint32) returns (ok: bool, ghost passed: seq<Db>)
    requires st.Valid() && DbOk(DbOf(st)) && ViewOk(v) && v.uidNext != 0 && 0 < lo <= hi < v.uidNext
    requires Opened(DbOf(st), v) == (DbOf(st), lo as nat - 1)
    modifies st
    ensures st.Valid() && Resumable(old(DbOf(st)), v, DbOf(st)) && AllResumable(old(DbOf(st)), v, passed)
    ensures st.passed == old(st.passed) + passed
    ensures ok ==> Marked(v, passed, [(lo as nat, hi as nat)])
                   && DbOf(st) == Swept(old(DbOf(st)), v, lo as nat - 1, hi as nat)
                   && Opened(DbOf(st), v) == (DbOf(st), hi as nat)
    ensures !ok ==> v.breaks || st.breaks
  {
    hide Result, Opened, Span, ViewOk, DbOk, Inserted;
    ghost var o := DbOf(st);
    passed := [];
    var msgs;
    ok, msgs := FetchChunk(v, lo, hi, o.rows);
    if !ok { return; }
    InsertResumable(o, v, lo as nat - 1, hi as nat);
    CursorResumable(o, v, lo as nat - 1, hi as nat);
    ok := st.InsertMessages(msgs);
    if ok && msgs != [] { passed := [DbOf(st)]; }
    if !ok { return; }
    ok := st.SetFolderCursor(v.folder, v.validity as nat, hi as nat);
    if ok { passed := passed + [DbOf(st)]; }
  }

  lemma ChunkRows(v: View, t: Table, want: set<nat>, lo: nat, hi: nat, msgs: seq<Row>)
    requires ViewOk(v) && Collected(v, want * v.heard, msgs) && want == set u | u in v.uids && lo < u <= hi
    ensures Inserted(t, msgs) == t + Span(v, lo, hi)
  {
    InsertedRows(v, t, want * v.heard, msgs);
    assert RowsOf(v, want * v.heard) == Span(v, lo, hi);
  }

  /** Opens the folder for a scan, starting over if its UIDVALIDITY changed. */
  method OpenFolder(st: Store, v: View) returns (ok: bool, last: nat)
    requires st.Valid() && DbOk(DbOf(st)) && ViewOk(v)
    modifies st
    ensures st.Valid() && (!ok ==> DbOf(st) == old(DbOf(st)))
    ensures st.passed == old(st.passed) + if DbOf(st) == old(DbOf(st)) then [] else [DbOf(st)]
    ensures if ok then (DbOf(st), last) == Opened(old(DbOf(st)), v) else st.breaks || v.folder in st.unread
  {
    ok, last := true, 0;
    var f := st.GetFolder(v.folder);
    if f.Failed? { return false, 0; }
    if f.Found? {
      if NeedsReset(f.cursor.validity as uint32, v.validity) {
        ok := st.ResetFolder(v.folder, v.validity as nat);
      } else {
        last := f.cursor.last;
      }
    }
  }

  lemma SweptMore(o: Db, v: View, last: nat, mid: nat, hi: nat)
    requires last <= mid < hi
    ensures Swept(Swept(o, v, last, mid), v, mid, hi) == Swept(o, v, last, hi)
  {
    if last < mid { SpanJoin(o.rows, v, last, mid, mid, hi); }
  }

  lemma MarkedMore(v: View, passed: seq<Db>, more: seq<Db>, chunks: seq<(nat, nat)>, also: seq<(nat, nat)>)
    requires Marked(v, passed, chunks) && Marked(v, more, also)
    ensures Marked(v, passed + more, chunks + also)
  {
    forall c | c in chunks + also
      ensures exists p <- passed + more :: v.folder in p.cursors && p.cursors[v.folder] == Cursor(v.validity as nat, c.1)
    {
      var ps := if c in chunks then passed else more;
      var p :| p in ps && v.folder in p.cursors && p.cursors[v.folder] == Cursor(v.validity as nat, c.1);
      assert p in passed + more;
    }
  }

  lemma ChunkMarked(v: View, passed: seq<Db>, more: seq<Db>, chunks: seq<(nat, nat)>, first: int, lo: int, hi: int, ok: bool)
    requires 0 < lo <= hi && Marked(v, passed, chunks) && Tiles(chunks, first, lo - 1)
    requires ok ==> Marked(v, more, [(lo, hi)])
    ensures Marked(v, passed + more, chunks)
    ensures ok ==> Marked(v, passed + more, chunks + [(lo, hi)]) && Tiles(chunks + [(lo, hi)], first, hi)
  {
    MarkedMore(v, passed, more, chunks, []);
    assert chunks + [] == chunks;
    if ok {
      MarkedMore(v, passed, more, chunks, [(lo, hi)]);
      assert (chunks + [(lo, hi)])[..|chunks|] == chunks;
    }
  }

  /** What one more chunk of a sweep adds, the database having been d and being e now. */
  lemma ChunkDone(o: Db, v: View, d: Db, e: Db, passed: seq<Db>, more: seq<Db>, chunks: seq<(nat, nat)>, first: nat, lo: nat,
                  hi: nat, ok: bool)
    requires Resumable(o, v, d) && Resumable(d, v, e) && AllResumable(o, v, passed) && AllResumable(d, v, more)
    requires 0 < first <= lo <= hi && d == Swept(o, v, first - 1, lo - 1)
    requires Marked(v, passed, chunks) && Tiles(chunks, first, lo - 1)
    requires ok ==> e == Swept(d, v, lo - 1, hi) && Marked(v, more, [(lo, hi)])
    ensures Resumable(o, v, e) && AllResumable(o, v, passed + more) && Marked(v, passed + more, chunks)
    ensures ok ==> e == Swept(o, v, first - 1, hi) && Marked(v, passed + more, chunks + [(lo, hi)])
                   && Tiles(chunks + [(lo, hi)], first, hi)
  {
    hide Marked, Tiles, AllResumable, Swept, Result, DbOk;
    ResumableMore(o, v, d, passed, more);
    ChunkMarked(v, passed, more, chunks, first, lo, hi, ok);
    if ok { SweptMore(o, v, first - 1, lo - 1, hi); }
  }

  /** Sweeps the folder from its cursor to the UID below UIDNEXT, in chunks. */
  method SweepChunks(st: Store, v: View, last: uint32, size: int) returns (ok: bool, ghost passed: seq<Db>,
      ghost chunks: seq<(nat, nat)>)
    requires st.Valid() && DbOk(DbOf(st)) && ViewOk(v) && v.uidNext != 0 && last < v.uidNext - 1
    requires Opened(DbOf(st), v) == (DbOf(st), last as nat)
    modifies st
    ensures st.Valid() && Resumable(old(DbOf(st)), v, DbOf(st)) && AllResumable(old(DbOf(st)), v, passed)
    ensures st.passed == old(st.passed) + passed && Marked(v, passed, chunks)
    ensures ok ==> DbOf(st) == Swept(old(DbOf(st)), v, last as nat, v.uidNext as nat - 1)
    ensures if ok then Tiles(chunks, last as int + 1, v.uidNext as int - 1) else v.breaks || st.breaks
  {
    hide Opened, Result, Span, ViewOk, NeedsReset;
    ghost var o := DbOf(st);
    var maxUid := v.uidNext - 1;
    var lo := last + 1;
    ok, passed, chunks := true, [], [];
    assert Resumable(o, v, o) && AllResumable(o, v, passed);
    assert Marked(v, passed, chunks) && Tiles(chunks, last as int + 1, last as int) && o == Swept(o, v, last as nat, last as nat);
    hide AllResumable, Marked, Tiles, Swept, Resumable, DbOk, DbOf;
    while true
      invariant ok && last < lo <= maxUid && st.Valid() && DbOk(DbOf(st))
      invariant DbOf(st) == Swept(o, v, last as nat, lo as nat - 1) && Opened(DbOf(st), v) == (DbOf(st), lo as nat - 1)
      invariant Resumable(o, v, DbOf(st)) && AllResumable(o, v, passed)
      invariant st.passed == old(st.passed) + passed && Marked(v, passed, chunks)
      invariant Tiles(chunks, last as int + 1, lo as int - 1)
      decreases maxUid - lo
    {
      var cancelled := Breaks(v);
      if cancelled { return false, passed, chunks; }
      var hi := ChunkHi(lo, maxUid, size);
      ghost var d, more := DbOf(st), [];
      ok, more := ScanChunk(st, v, lo, hi);
      ChunkDone(o, v, d, DbOf(st), passed, more, chunks, last as nat + 1, lo as nat, hi as nat, ok);
      passed := passed + more;
      if !ok { return; }
      chunks := chunks + [(lo as nat, hi as nat)];
      if hi >= maxUid { break; }
      lo := hi + 1;
    }
  }

  lemma OpenResumable(o: Db, v: View, last: nat)
    requires ViewOk(v) && DbOk(o) && Opened(o, v) == (o, last) && v.uidNext == 0 && last <= MAX_UID as nat
    ensures var got := OpenSet(v, OpenFrom(last)) * v.heard;
      && Resumable(o, v, Db(o.rows + RowsOf(v, got), o.cursors))
      && SweptOpen(o, v, last).rows == o.rows + RowsOf(v, got) && DbOk(SweptOpen(o, v, last))
  {
    var got := OpenSet(v, OpenFrom(last)) * v.heard;
    var d := Db(o.rows + RowsOf(v, got), o.cursors);
    assert Opened(d, v) == (d, last);
    assert d.rows + RowsOf(v, got) == d.rows;
  }

  /** Scanning again finds nothing to change: the same rows, the same cursor. */
  lemma OpenIdempotent(o: Db, v: View, last: nat)
    requires ViewOk(v) && DbOk(o) && Opened(o, v) == (o, last) && v.uidNext == 0 && last <= MAX_UID as nat
    ensures Resumable(o, v, SweptOpen(o, v, last))
  {
    var from := OpenFrom(last);
    var got := OpenSet(v, from) * v.heard;
    var top, d := MaxFrom(got, last), SweptOpen(o, v, last);
    OpenResumable(o, v, last);
    assert Opened(d, v) == (d, top);
    var again := OpenSet(v, OpenFrom(top)) * v.heard;
    AgainWithin(v, last, top);
    assert again <= got;
    MaxIs(again, top, top);
    assert d.rows + RowsOf(v, again) == d.rows;
  }

  /** What a second open-ended sweep fetches, the first one fetched. */
  lemma AgainWithin(v: View, last: nat, top: nat)
    requires ViewOk(v) && last <= MAX_UID as nat
    requires top == MaxFrom(OpenSet(v, OpenFrom(last)) * v.heard, last)
    ensures OpenSet(v, OpenFrom(top)) * v.heard <= OpenSet(v, OpenFrom(last)) * v.heard
  {
    var a, b := OpenSet(v, OpenFrom(last)), OpenSet(v, OpenFrom(top));
    forall u | u in b && u in v.heard ensures u in a {
      if x :| x in AtLeast(v, OpenFrom(last)) {
        assert u in Last(v) ==> x <= u;
      } else {
        assert AtLeast(v, OpenFrom(last)) == {};
        assert forall y <- a :: y in AtLeast(v, last + 1) || y <= last;
        assert top == last;
      }
    }
  }

  /** One open-ended sweep: the cursor goes to the highest UID that answered. */
  method RunOpenRange(st: Store, v: View, last: uint32) returns (ok: bool, ghost passed: seq<Db>)
    requires st.Valid() && DbOk(DbOf(st)) && ViewOk(v) && v.uidNext == 0
    requires Opened(DbOf(st), v) == (DbOf(st), last as nat)
    modifies st
    ensures st.Valid() && Resumable(old(DbOf(st)), v, DbOf(st)) && AllResumable(old(DbOf(st)), v, passed)
    ensures st.passed == old(st.passed) + passed
    ensures if ok then DbOf(st) == SweptOpen(old(DbOf(st)), v, last as nat) else v.breaks || st.breaks
  {
    hide Opened, Result, ViewOk;
    ghost var o := DbOf(st);
    passed := [];
    var from := OpenFrom(last as nat);
    var want := OpenSet(v, from);
    var msgs, maxSeen;
    ok, msgs, maxSeen := FetchHeaders(v, want, last as nat);
    if !ok { return; }
    InsertedRows(v, o.rows, want * v.heard, msgs);
    OpenResumable(o, v, last as nat);
    OpenIdempotent(o, v, last as nat);
    ok := st.InsertMessages(msgs);
    if ok && msgs != [] { passed := [DbOf(st)]; }
    if !ok { return; }
    if maxSeen > last as nat {
      ok := st.SetFolderCursor(v.folder, v.validity as nat, maxSeen);
      if ok { passed := passed + [DbOf(st)]; }
    }
  }

  /** The mailbox has another UIDVALIDITY than the nonzero one stored for it. */
  ghost predicate Stale(d: Db, v: View) {
    v.folder in d.cursors && d.cursors[v.folder].validity != 0 && d.cursors[v.folder].validity != v.validity as nat
  }

  /** The UID the database has got to in the mailbox as it is now. */
  ghost function Reached(d: Db, v: View): nat {
    if v.folder in d.cursors && !Stale(d, v) then d.cursors[v.folder].last else 0
  }

  ghost predicate SameElsewhere(d: Db, d': Db, f: Folder) {
    && (forall l: Loc :: l.folder != f ==> (l in d'.rows <==> l in d.rows) && (l in d.rows ==> d'.rows[l] == d.rows[l]))
    && forall g: Folder :: g != f ==> (g in d'.cursors <==> g in d.cursors) && (g in d.cursors ==> d'.cursors[g] == d.cursors[g])
  }

  /** The scan of a stale folder: its rows are the mailbox's and no others. */
  ghost predicate StartedOver(v: View, d': Db) {
    && (forall l: Loc :: l.folder == v.folder ==> (l in d'.rows <==> l in v.rows) && (l in v.rows ==> d'.rows[l] == v.rows[l]))
    && v.folder in d'.cursors && d'.cursors[v.folder].validity == v.validity as nat
    && (v.uidNext != 0 ==> d'.cursors[v.folder].last == v.uidNext as nat - 1)
    && (v.uidNext == 0 ==> forall u <- v.heard :: u <= d'.cursors[v.folder].last)
  }

  ghost predicate NoneAbove(v: View, uid: nat) {
    forall u <- v.uids :: u <= uid
  }

  /** The scan of any other: no row goes away, the rows above the cursor are the
      mailbox's, and those up to it stay as they are, but for the last message's
      with an unknown UIDNEXT, which is the mailbox's in any case. */
  ghost predicate CarriedOn(d: Db, v: View, d': Db) {
    && (forall l <- d.rows :: l in d'.rows)
    && (forall l: Loc :: l.folder == v.folder && Reached(d, v) < l.uid && l in v.rows ==> l in d'.rows && d'.rows[l] == v.rows[l])
    && (forall l <- d'.rows ::
          || (l in d.rows && d'.rows[l] == d.rows[l])
          || (l in v.rows && (Reached(d, v) < l.uid || (v.uidNext == 0 && NoneAbove(v, l.uid))) && d'.rows[l] == v.rows[l]))
    && (v.uidNext == 0 ==> forall l <- v.rows :: NoneAbove(v, l.uid) ==> l in d'.rows && d'.rows[l] == v.rows[l])
    && (v.uidNext != 0 ==>
          && (forall l <- d'.rows :: l.uid <= Reached(d, v) ==> l in d.rows && d'.rows[l] == d.rows[l])
          && (if Reached(d, v) < v.uidNext as nat - 1
              then v.folder in d'.cursors && d'.cursors[v.folder] == Cursor(v.validity as nat, v.uidNext as nat - 1)
              else d'.cursors == d.cursors))
    && (v.uidNext == 0 ==>
          if exists u <- v.heard :: Reached(d, v) < u
          then v.folder in d'.cursors && d'.cursors[v.folder].validity == v.validity as nat
               && d'.cursors[v.folder].last in v.heard && forall u <- v.heard :: u <= d'.cursors[v.folder].last
          else d'.cursors == d.cursors)
  }

  /** What a whole scan of the mailbox v leaves of the database d. */
  ghost predicate Scanned(d: Db, v: View, d': Db) {
    && SameElsewhere(d, d', v.folder)
    && if Stale(d, v) then StartedOver(v, d') else CarriedOn(d, v, d')
  }

  lemma OpenedMeaning(d: Db, v: View)
    ensures Opened(d, v).1 == Reached(d, v)
    ensures !Stale(d, v) ==> Opened(d, v).0 == d
    ensures Stale(d, v) ==>
              && Opened(d, v).1 == 0
              && SameElsewhere(d, Opened(d, v).0, v.folder) && (forall l <- Opened(d, v).0.rows :: l.folder != v.folder)
              && v.folder in Opened(d, v).0.cursors && Opened(d, v).0.cursors[v.folder] == Cursor(v.validity as nat, 0)
  {
  }

  /** What an open range fetches: of the messages above the cursor all that
      answer; none of them, and it is at most the last one. */
  lemma OpenSetMeaning(v: View, last: nat)
    requires ViewOk(v) && last <= MAX_UID as nat
    ensures var got := OpenSet(v, OpenFrom(last)) * v.heard;
      && (forall u <- v.heard :: last < u ==> u in got)
      && (forall u <- got :: last < u || NoneAbove(v, u))
      && (forall u <- v.heard :: NoneAbove(v, u) ==> u in got)
      && (MaxFrom(got, last) == last <==> forall u <- v.heard :: u <= last)
      && (last < MaxFrom(got, last) ==> MaxFrom(got, last) in v.heard && forall u <- v.heard :: u <= MaxFrom(got, last))
  {
    var from := OpenFrom(last);
    var got := OpenSet(v, from) * v.heard;
    forall u | u in v.uids && last < u ensures u in AtLeast(v, from) { }
    assert forall u <- v.heard :: last < u ==> u in got;
  }

  lemma SweptMeaning(o: Db, v: View, last: nat)
    requires ViewOk(v) && v.uidNext != 0
    ensures var d' := Swept(o, v, last, v.uidNext as nat - 1);
      && SameElsewhere(o, d', v.folder)
      && (forall l <- o.rows :: l in d'.rows)
      && (forall l <- v.rows :: last < l.uid ==> l in d'.rows && d'.rows[l] == v.rows[l])
      && (forall l <- d'.rows :: (l in o.rows && d'.rows[l] == o.rows[l]) || (l in v.rows && last < l.uid && d'.rows[l] == v.rows[l]))
      && (if last < v.uidNext as nat - 1
          then v.folder in d'.cursors && d'.cursors[v.folder] == Cursor(v.validity as nat, v.uidNext as nat - 1)
          else d'.cursors == o.cursors)
      && forall l <- d'.rows :: l.uid <= last ==> l in o.rows && d'.rows[l] == o.rows[l]
  {
  }

  lemma SweptOpenMeaning(o: Db, v: View, last: nat)
    requires ViewOk(v) && v.uidNext == 0 && last <= MAX_UID as nat
    ensures var d' := SweptOpen(o, v, last);
      && SameElsewhere(o, d', v.folder)
      && (forall l <- o.rows :: l in d'.rows)
      && (forall l <- v.rows :: last < l.uid ==> l in d'.rows && d'.rows[l] == v.rows[l])
      && (forall l <- d'.rows ::
            || (l in o.rows && d'.rows[l] == o.rows[l])
            || (l in v.rows && (last < l.uid || NoneAbove(v, l.uid)) && d'.rows[l] == v.rows[l]))
      && (forall l <- v.rows :: NoneAbove(v, l.uid) ==> l in d'.rows && d'.rows[l] == v.rows[l])
      && (if exists u <- v.heard :: last < u
          then v.folder in d'.cursors && d'.cursors[v.folder].validity == v.validity as nat
               && d'.cursors[v.folder].last in v.heard && forall u <- v.heard :: u <= d'.cursors[v.folder].last
          else d'.cursors == o.cursors)
  {
    OpenSetMeaning(v, last);
    hide OpenSet;
  }

  /** A whole scan does that. */
  lemma ResultMeaning(d: Db, v: View)
    requires ViewOk(v) && DbOk(d)
    ensures Scanned(d, v, Result(d, v))
  {
    hide Opened, Result, Swept, SweptOpen, Stale, Reached;
    var (o, last) := Opened(d, v);
    OpenedMeaning(d, v);
    LastFits(d, v);
    OpenedResult(d, v);
    if Stale(d, v) {
      StaleMeaning(d, o, v);
    } else if v.uidNext != 0 {
      SweptMeaning(o, v, last);
    } else {
      SweptOpenMeaning(o, v, last);
    }
  }

  lemma StaleMeaning(d: Db, o: Db, v: View)
    requires ViewOk(v) && SameElsewhere(d, o, v.folder) && (forall l <- o.rows :: l.folder != v.folder)
    requires v.folder in o.cursors && o.cursors[v.folder] == Cursor(v.validity as nat, 0)
    ensures var d' := if v.uidNext != 0 then Swept(o, v, 0, v.uidNext as nat - 1) else SweptOpen(o, v, 0);
      SameElsewhere(d, d', v.folder) && StartedOver(v, d')
  {
    if v.uidNext != 0 { SweptMeaning(o, v, 0); } else { SweptOpenMeaning(o, v, 0); }
    hide Swept, SweptOpen;
  }

  /** Scans one folder. However it ends, and at whatever moment it is cut off,
      a whole scan from there gives the same messages and the same cursor as a
      whole scan from the start; when it ends without an error that is what it
      leaves. The chunks it used follow on from each other over exactly the
      UIDs from one past the cursor to UIDNEXT - 1. */
  method RunFolder(st: Store, v: View, size: int) returns (ok: bool, ghost passed: seq<Db>, ghost chunks: seq<(nat, nat)>)
    requires st.Valid() && DbOk(DbOf(st)) && ViewOk(v)
    modifies st
    ensures st.Valid() && Resumable(old(DbOf(st)), v, DbOf(st))
    ensures st.passed == old(st.passed) + passed && AllResumable(old(DbOf(st)), v, passed)
    ensures if ok then DbOf(st) == Result(old(DbOf(st)), v) && Scanned(old(DbOf(st)), v, DbOf(st))
            else v.breaks || st.breaks || v.folder in st.unread
    ensures ok && v.uidNext as nat > Reached(old(DbOf(st)), v) + 1 ==>
              Tiles(chunks, Reached(old(DbOf(st)), v) + 1, v.uidNext as int - 1) && Marked(v, passed, chunks)
  {
    hide Result, Swept, SweptOpen, Scanned;
    ghost var d0 := DbOf(st);
    ResultMeaning(d0, v);
    OpenedMeaning(d0, v);
    passed, chunks := [], [];
    OpenedResumable(d0, v);
    var last;
    ok, last := OpenFolder(st, v);
    if !ok { return; }
    LastFits(d0, v);
    ghost var o, more := DbOf(st), [];
    passed := if o == d0 then [] else [o];
    OpenedResult(d0, v);
    if v.uidNext == 0 {
      ok, more := RunOpenRange(st, v, last as uint32);
    } else if v.uidNext as nat - 1 <= last {
      NothingNew(o, v, last);
    } else {
      ok, more, chunks := SweepChunks(st, v, last as uint32, size);
    }
    ResumableMore(d0, v, o, passed, more);
    if o != d0 { MarkedMore(v, passed, more, [], chunks); }
    passed := passed + more;
  }

  lemma LastFits(d: Db, v: View)
    requires DbOk(d)
    ensures Opened(d, v).1 <= MAX_UID as nat
  {
  }

  lemma OpenedResult(d: Db, v: View)
    requires ViewOk(v) && DbOk(d)
    ensures var (o, last) := Opened(d, v);
      Result(d, v) == if v.uidNext != 0 then Swept(o, v, last, v.uidNext as nat - 1) else SweptOpen(o, v, last)
  {
  }

  lemma NothingNew(o: Db, v: View, last: nat)
    requires v.uidNext != 0 && v.uidNext as nat - 1 <= last
    ensures Swept(o, v, last, v.uidNext as nat - 1) == o
  {
  }

  /** Scanning a folder that has not changed since its last whole scan changes
      nothing. */
  lemma ScanAgain(d: Db, v: View)
    requires ViewOk(v) && DbOk(d)
    ensures Result(Result(d, v), v) == Result(d, v)
  {
    OpenedResumable(d, v);
    LastFits(d, v);
    var (o, last) := Opened(d, v);
    OpenedResult(d, v);
    if v.uidNext == 0 {
      OpenIdempotent(o, v, last);
    } else if last < v.uidNext as nat - 1 {
      CursorResumable(o, v, last, v.uidNext as nat - 1);
    }
  }
}
