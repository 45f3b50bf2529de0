/** What a run is confirmed on: the entries left after protection, and the
    counts shown (internal/apply/apply.go, internal/apply/phases.go). */
module Preview {
  import opened Mailbox
  import opened Audit
  import opened Events
  import opened Uids
  import opened WriteAhead
  import opened Soundness
  import opened Rules
  import opened Apply
  import opened Store
  import opened Execute

  /** What the database knows of a sender besides its messages. */
  datatype Group = Group(address: string, domain: string, listId: string)

  /** Who is protected: senders by key, and whoever the configured list matches. */
  datatype Protection = Protection(
    keys: set<string>, groups: map<string, Group>, matches: (string, string, string) -> bool, username: string)

  function GroupOf(pr: Protection, e: Entry): Group {
    if e.sender in pr.groups then pr.groups[e.sender] else Group("", "", "")
  }

  function AddressOf(pr: Protection, e: Entry): string {
    if GroupOf(pr, e).address != "" then GroupOf(pr, e).address else e.address
  }

  predicate IsProtected(pr: Protection, e: Entry) {
    e.sender in pr.keys || pr.matches(GroupOf(pr, e).domain, AddressOf(pr, e), GroupOf(pr, e).listId)
  }

  /** A sender is protected by key, or by the list: by the domain, address and
      List-Id the database has, or by the decision's own address if it has none. */
  lemma ProtectedMeaning(pr: Protection, e: Entry)
    ensures IsProtected(pr, e) <==>
              || e.sender in pr.keys
              || (e.sender !in pr.groups && pr.matches("", e.address, ""))
              || (e.sender in pr.groups && pr.groups[e.sender].address == ""
                  && pr.matches(pr.groups[e.sender].domain, e.address, pr.groups[e.sender].listId))
              || (e.sender in pr.groups && pr.groups[e.sender].address != ""
                  && pr.matches(pr.groups[e.sender].domain, pr.groups[e.sender].address, pr.groups[e.sender].listId))
    ensures IsOwn(pr, e) <==>
              pr.username != "" && SameText(pr.username,
                if e.sender in pr.groups && pr.groups[e.sender].address != "" then pr.groups[e.sender].address else e.address)
  {
    LowerMeaning(pr.username, AddressOf(pr, e));
  }

  predicate IsOwn(pr: Protection, e: Entry) {
    pr.username != "" && Lower(AddressOf(pr, e)) == Lower(pr.username)
  }

  predicate Acts(e: Entry) {
    e.unsubscribe || e.deleteMatched || e.deleteAll
  }

  /** What becomes of one decision, as a list of none or one. */
  function Admit(pr: Protection, e: Entry): seq<Entry> {
    if !Acts(e) || IsProtected(pr, e) then []
    else if e.deleteAll && IsOwn(pr, e) then
      if e.unsubscribe || e.deleteMatched then [e.(deleteAll := false)] else []
    else [e]
  }

  function Admitted(pr: Protection, decisions: seq<Entry>): seq<Entry> {
    if decisions == [] then []
    else Admitted(pr, decisions[..|decisions| - 1]) + Admit(pr, decisions[|decisions| - 1])
  }

  /** A decision that is dropped or cut down gets a reason. */
  predicate Noted(pr: Protection, e: Entry) {
    Acts(e) && (IsProtected(pr, e) || (e.deleteAll && IsOwn(pr, e)))
  }

  ghost function NotedCount(pr: Protection, decisions: seq<Entry>): nat {
    if decisions == [] then 0
    else NotedCount(pr, decisions[..|decisions| - 1]) + if Noted(pr, decisions[|decisions| - 1]) then 1 else 0
  }

  function ReasonFor(pr: Protection, e: Entry): string {
    if IsProtected(pr, e) then (if e.deleteAll then REASON_PROTECTED_ALL else REASON_PROTECTED)
    else REASON_OWN_ADDRESS
  }

  /** The line l says why the decision d was dropped or cut down. */
  ghost predicate Dropped(pr: Protection, d: Entry, l: Line) {
    && l.sender == d.sender && (d.unsubscribe || d.deleteMatched || d.deleteAll)
    && (if IsProtected(pr, d) then l.error == if d.deleteAll then "protected (delete_all refused)" else "protected"
        else d.deleteAll && IsOwn(pr, d) && l.error == "own address (delete_all refused)")
  }

  /** How many of the lines give the reason k. */
  ghost function NotesOf(lines: seq<Line>, k: string): nat {
    if lines == [] then 0
    else NotesOf(lines[..|lines| - 1], k) + if lines[|lines| - 1].error == k then 1 else 0
  }

  /** The lines for the log, in the order of the plan. */
  function Notes(pr: Protection, decisions: seq<Entry>): seq<Line> {
    if decisions == [] then []
    else
      var e := decisions[|decisions| - 1];
      Notes(pr, decisions[..|decisions| - 1])
      + if Noted(pr, e) then [BLANK.(action := Skip, sender := e.sender, error := ReasonFor(pr, e))] else []
  }

  /** Each says why some decision is dropped or cut down. */
  lemma {:induction false} NotesFrom(pr: Protection, decisions: seq<Entry>, l: Line)
    requires l in Notes(pr, decisions)
    ensures l.action == Skip && exists d <- decisions :: Dropped(pr, d, l)
    decreases |decisions|
  {
    hide IsProtected, IsOwn;
    var front, last := decisions[..|decisions| - 1], decisions[|decisions| - 1];
    if l in Notes(pr, front) {
      NotesFrom(pr, front, l);
      var d :| d in front && Dropped(pr, d, l);
      assert d in decisions;
    } else {
      assert last in decisions && Dropped(pr, last, l);
    }
  }

  /** And each that is has one. */
  lemma {:induction false} NotesFor(pr: Protection, decisions: seq<Entry>, d: Entry)
    requires d in decisions && (d.unsubscribe || d.deleteMatched || d.deleteAll)
    requires IsProtected(pr, d) || (d.deleteAll && IsOwn(pr, d))
    ensures exists l <- Notes(pr, decisions) :: Dropped(pr, d, l)
    decreases |decisions|
  {
    hide IsProtected, IsOwn;
    var front, last := decisions[..|decisions| - 1], decisions[|decisions| - 1];
    assert decisions == front + [last];
    if d == last {
      var l := BLANK.(action := Skip, sender := d.sender, error := ReasonFor(pr, d));
      assert l in Notes(pr, decisions) && Dropped(pr, d, l);
    } else {
      NotesFor(pr, front, d);
      var l :| l in Notes(pr, front) && Dropped(pr, d, l);
      assert l in Notes(pr, decisions);
    }
  }

  lemma {:induction false} NotesCount(pr: Protection, decisions: seq<Entry>)
    ensures |Notes(pr, decisions)| == NotedCount(pr, decisions)
    ensures forall l <- Notes(pr, decisions) :: l.action == Skip
  {
    if decisions != [] { NotesCount(pr, decisions[..|decisions| - 1]); }
  }

  /** Drops what is protected and refuses to delete everything from the user's
      own address, counting each and leaving a line for the log. */
  method FilterProtected(r: Runner, pr: Protection, decisions: seq<Entry>) returns (kept: seq<Entry>, pending: seq<Line>)
    requires Total(r.reasons) == r.skippedSenders + r.skippedMessages
    modifies r`skippedSenders, r`reasons
    ensures kept == Admitted(pr, decisions) && pending == Notes(pr, decisions)
    ensures r.skippedSenders == old(r.skippedSenders) + |pending|
    ensures Total(r.reasons) == r.skippedSenders + r.skippedMessages
    ensures forall k :: At(r.reasons, k) == At(old(r.reasons), k) + NotesOf(pending, k)
  {
    hide IsProtected, IsOwn, Total, Admit;
    kept, pending := [], [];
    for i := 0 to |decisions|
      invariant kept == Admitted(pr, decisions[..i]) && pending == Notes(pr, decisions[..i])
      invariant r.skippedSenders == old(r.skippedSenders) + |pending|
      invariant Total(r.reasons) == r.skippedSenders + r.skippedMessages
      invariant forall k :: At(r.reasons, k) == At(old(r.reasons), k) + NotesOf(pending, k)
    {
      var e := decisions[i];
      assert decisions[..i + 1][..i] == decisions[..i];
      if Noted(pr, e) {
        var reason := ReasonFor(pr, e);
        TotalBump(r.reasons, reason);
        r.skippedSenders, r.reasons := r.skippedSenders + 1, Bump(r.reasons, reason);
        Snoc(pending, BLANK.(action := Skip, sender := e.sender, error := reason));
        pending := pending + [BLANK.(action := Skip, sender := e.sender, error := reason)];
      }
      kept := kept + Admit(pr, e);
    }
    assert decisions[..|decisions|] == decisions;
  }

  /** An entry of the run is a decision of the plan, of the same sender, who is
      not protected, and it asks for no more; it deletes everything from the
      sender only if the sender is not the user. */
  ghost predicate Descends(pr: Protection, e: Entry, d: Entry) {
    && e.sender == d.sender && !IsProtected(pr, d) && (e.unsubscribe || e.deleteMatched || e.deleteAll)
    && e == d.(deleteAll := d.deleteAll && !IsOwn(pr, d))
  }

  /** The run's entries are exactly the unprotected decisions that still ask
      for something once deleting the user's own mail is taken off. */
  lemma {:induction false} AdmittedExactly(pr: Protection, decisions: seq<Entry>, e: Entry)
    ensures e in Admitted(pr, decisions) <==> exists d :: d in decisions && Descends(pr, e, d)
    decreases |decisions|
  {
    if decisions != [] {
      var front, last := decisions[..|decisions| - 1], decisions[|decisions| - 1];
      AdmittedExactly(pr, front, e);
      AdmitsOne(pr, last, e);
      hide Admit, Descends;
      assert decisions == front + [last];
      assert last in decisions && forall d <- front :: d in decisions;
      if d :| d in decisions && Descends(pr, e, d) {
        assert d in front || d == last;
      }
    }
  }

  lemma AdmitsOne(pr: Protection, d: Entry, e: Entry)
    ensures e in Admit(pr, d) <==> Descends(pr, e, d)
  {
  }

  lemma {:induction false} AdmittedDistinct(pr: Protection, decisions: seq<Entry>)
    requires DistinctSenders(decisions)
    ensures DistinctSenders(Admitted(pr, decisions))
    decreases |decisions|
  {
    if decisions != [] {
      var front, last := decisions[..|decisions| - 1], decisions[|decisions| - 1];
      AdmittedDistinct(pr, front);
      var a := Admitted(pr, front);
      forall i | 0 <= i < |a| ensures a[i].sender != last.sender {
        AdmittedFrom(pr, front, a[i]);
      }
      assert Admitted(pr, decisions) == a + Admit(pr, last);
    }
  }

  lemma {:induction false} AdmittedFrom(pr: Protection, decisions: seq<Entry>, e: Entry)
    requires e in Admitted(pr, decisions)
    ensures exists i :: 0 <= i < |decisions| && decisions[i].sender == e.sender
    decreases |decisions|
  {
    var front, last := decisions[..|decisions| - 1], decisions[|decisions| - 1];
    if e in Admit(pr, last) {
      assert decisions[|decisions| - 1].sender == e.sender;
    } else {
      AdmittedFrom(pr, front, e);
      var i :| 0 <= i < |front| && front[i].sender == e.sender;
      assert decisions[i].sender == e.sender;
    }
  }

  /** preFiltered: what a run will not move whatever the server says. */
  predicate PreFiltered(c: Config, trash: Folder, m: Row) {
    || c.lower(m.at.folder) in NEVER_SOURCE
    || (trash != NOWHERE && c.lower(m.at.folder) == c.lower(trash))
    || FlagVerdict(m.flags).Refused?
  }

  predicate KeptAtScan(c: Config, m: Row, includeKept: bool) {
    c.keepOn && !includeKept && m.keep != ""
  }

  predicate Counted(c: Config, trash: Folder, e: Entry, m: Row) {
    !PreFiltered(c, trash, m) && !KeptAtScan(c, m, e.includeKept)
  }

  function Shown(c: Config, trash: Folder, e: Entry, msgs: seq<Row>): seq<Row> {
    if msgs == [] then []
    else
      var m := msgs[|msgs| - 1];
      Shown(c, trash, e, msgs[..|msgs| - 1]) + if Counted(c, trash, e, m) then [m] else []
  }

  function Bytes(msgs: seq<Row>): nat {
    if msgs == [] then 0 else Bytes(msgs[..|msgs| - 1]) + msgs[|msgs| - 1].size
  }

  lemma ShownMore(c: Config, trash: Folder, e: Entry, msgs: seq<Row>, i: nat)
    requires i < |msgs|
    ensures var a, b := Shown(c, trash, e, msgs[..i]), Shown(c, trash, e, msgs[..i + 1]);
      && b == a + (if Counted(c, trash, e, msgs[i]) then [msgs[i]] else [])
      && Bytes(b) == Bytes(a) + if Counted(c, trash, e, msgs[i]) then msgs[i].size else 0
  {
    var a, next := Shown(c, trash, e, msgs[..i]), msgs[..i + 1];
    assert next[..|next| - 1] == msgs[..i] && next[|next| - 1] == msgs[i];
    Snoc(a, msgs[i]);
    assert a + [] == a;
  }

  lemma NoneShown(c: Config, trash: Folder, e: Entry)
    ensures Shown(c, trash, e, []) == [] && Bytes([]) == 0
  {
  }

  datatype PreviewRow = PreviewRow(sender: string, messages: nat, bytes: nat, kept: nat)

  /** One sender's row of the preview. */
  method RowFor(c: Config, trash: Folder, e: Entry, msgs: seq<Row>) returns (row: PreviewRow)
    ensures row.sender == e.sender && row.messages == |Shown(c, trash, e, msgs)| && row.bytes == Bytes(Shown(c, trash, e, msgs))
    ensures row.messages + row.kept <= |msgs|
    ensures if c.keepOn && !e.includeKept then row.messages + row.kept == |Shown(c, trash, e.(includeKept := true), msgs)|
            else row.kept == 0
  {
    hide PreFiltered, Shown, Bytes;
    NoneShown(c, trash, e);
    NoneShown(c, trash, e.(includeKept := true));
    row := PreviewRow(e.sender, 0, 0, 0);
    var waived := e.(includeKept := true);
    for i := 0 to |msgs|
      invariant row.sender == e.sender && row.messages == |Shown(c, trash, e, msgs[..i])|
      invariant row.bytes == Bytes(Shown(c, trash, e, msgs[..i]))
      invariant row.messages + row.kept <= i
      invariant if c.keepOn && !e.includeKept then row.messages + row.kept == |Shown(c, trash, waived, msgs[..i])|
                else row.kept == 0
    {
      var m := msgs[i];
      ShownMore(c, trash, e, msgs, i);
      ShownMore(c, trash, waived, msgs, i);
      if !PreFiltered(c, trash, m) {
        if KeptAtScan(c, m, e.includeKept) {
          row := row.(kept := row.kept + 1);
        } else {
          row := row.(messages := row.messages + 1, bytes := row.bytes + m.size);
        }
      }
    }
    assert msgs[..|msgs|] == msgs;
  }

  /** The messages in scope for a sender: those of its target, if it has one. */
  ghost function ScopeOf(targets: seq<Target>, sender: string): seq<Row> {
    if targets == [] then []
    else
      var t := targets[|targets| - 1];
      if t.entry.sender == sender then t.msgs else ScopeOf(targets[..|targets| - 1], sender)
  }

  ghost function ShownFor(c: Config, trash: Folder, targets: seq<Target>, e: Entry): seq<Row> {
    Shown(c, trash, e, ScopeOf(targets, e.sender))
  }

  ghost predicate RowIs(c: Config, trash: Folder, targets: seq<Target>, e: Entry, row: PreviewRow) {
    && row.sender == e.sender
    && row.messages == |ShownFor(c, trash, targets, e)|
    && row.bytes == Bytes(ShownFor(c, trash, targets, e))
    && (if c.keepOn && !e.includeKept
        then row.messages + row.kept == |ShownFor(c, trash, targets, e.(includeKept := true))| else row.kept == 0)
  }

  ghost function AllShown(c: Config, trash: Folder, targets: seq<Target>, entries: seq<Entry>): seq<Row> {
    if entries == [] then []
    else AllShown(c, trash, targets, entries[..|entries| - 1]) + ShownFor(c, trash, targets, entries[|entries| - 1])
  }

  lemma {:induction false} BytesAppend(a: seq<Row>, b: seq<Row>)
    ensures Bytes(a + b) == Bytes(a) + Bytes(b)
  {
    if b == [] {
      assert a + b == a;
    } else {
      BytesAppend(a, b[..|b| - 1]);
      Snoc(a + b[..|b| - 1], b[|b| - 1]);
      assert a + b == (a + b[..|b| - 1]) + [b[|b| - 1]];
    }
  }

  method ScopeMap(targets: seq<Target>) returns (scope: map<string, seq<Row>>)
    ensures forall k :: ScopeOf(targets, k) == if k in scope then scope[k] else []
  {
    scope := map[];
    for i := 0 to |targets|
      invariant forall k :: ScopeOf(targets[..i], k) == if k in scope then scope[k] else []
    {
      assert targets[..i + 1][..i] == targets[..i];
      scope := scope[targets[i].entry.sender := targets[i].msgs];
    }
    assert targets[..|targets|] == targets;
  }

  ghost function SumMessages(rows: seq<PreviewRow>): nat {
    if rows == [] then 0 else SumMessages(rows[..|rows| - 1]) + rows[|rows| - 1].messages
  }

  ghost function SumBytes(rows: seq<PreviewRow>): nat {
    if rows == [] then 0 else SumBytes(rows[..|rows| - 1]) + rows[|rows| - 1].bytes
  }

  lemma SumsSnoc(rows: seq<PreviewRow>, row: PreviewRow)
    ensures SumMessages(rows + [row]) == SumMessages(rows) + row.messages
    ensures SumBytes(rows + [row]) == SumBytes(rows) + row.bytes
  {
    Snoc(rows, row);
  }

  lemma AllShownMore(c: Config, trash: Folder, targets: seq<Target>, entries: seq<Entry>, i: nat)
    requires i < |entries|
    ensures var a, b := AllShown(c, trash, targets, entries[..i]), AllShown(c, trash, targets, entries[..i + 1]);
      && |b| == |a| + |ShownFor(c, trash, targets, entries[i])|
      && Bytes(b) == Bytes(a) + Bytes(ShownFor(c, trash, targets, entries[i]))
  {
    assert entries[..i + 1][..i] == entries[..i];
    BytesAppend(AllShown(c, trash, targets, entries[..i]), ShownFor(c, trash, targets, entries[i]));
  }

  lemma NothingShown(c: Config, trash: Folder, targets: seq<Target>)
    ensures AllShown(c, trash, targets, []) == [] && Bytes([]) == 0 && SumMessages([]) == 0 && SumBytes([]) == 0
  {
  }

  /** The preview: a row for each entry, and the totals. */
  method PreviewRun(c: Config, trash: Folder, st: Store, entries: seq<Entry>)
    returns (ok: bool, rows: seq<PreviewRow>, messages: nat, bytes: nat, targets: seq<Target>)
    requires st.Valid()
    ensures if ok then TargetsOf(st.rows, entries, targets) else st.breaks
    ensures ok ==> |rows| == |entries| && forall i :: 0 <= i < |rows| ==> RowIs(c, trash, targets, entries[i], rows[i])
    ensures ok ==> messages == |AllShown(c, trash, targets, entries)| && bytes == Bytes(AllShown(c, trash, targets, entries))
    ensures ok ==> messages == SumMessages(rows) && bytes == SumBytes(rows)
  {
    hide TargetsOf, ScopeOf, Shown, Bytes, AllShown, SumMessages, SumBytes;
    rows, messages, bytes := [], 0, 0;
    var found;
    ok, found := DeleteTargets(st, entries);
    targets := found;
    if !ok { return; }
    NothingShown(c, trash, targets);
    var scope := ScopeMap(found);
    for i := 0 to |entries|
      invariant |rows| == i && forall j :: 0 <= j < i ==> RowIs(c, trash, targets, entries[j], rows[j])
      invariant messages == SumMessages(rows) && bytes == SumBytes(rows)
      invariant messages == |AllShown(c, trash, targets, entries[..i])|
          && bytes == Bytes(AllShown(c, trash, targets, entries[..i]))
    {
      var e := entries[i];
      var msgs := if e.sender in scope then scope[e.sender] else [];
      assert msgs == ScopeOf(found, e.sender);
      var row := RowFor(c, trash, e, msgs);
      AllShownMore(c, trash, targets, entries, i);
      SumsSnoc(rows, row);
      rows, messages, bytes := rows + [row], messages + row.messages, bytes + row.bytes;
    }
    assert entries[..|entries|] == entries;
  }

  ghost function Positions(rows: seq<Row>): set<Loc> {
    set r | r in rows :: r.at
  }

  /** The size of the messages at locs, as the database has it. */
  ghost function SizeOf(t: Table, locs: set<Loc>): nat {
    if locs == {} then 0
    else
      var l :| l in locs;
      SizeOf(t, locs - {l}) + if l in t then t[l].size else 0
  }

  lemma {:induction false} SizeAt(t: Table, locs: set<Loc>, l: Loc)
    requires l in locs
    ensures SizeOf(t, locs) == SizeOf(t, locs - {l}) + if l in t then t[l].size else 0
    decreases |locs|
  {
    var k :| k in locs && SizeOf(t, locs) == SizeOf(t, locs - {k}) + if k in t then t[k].size else 0;
    if k != l {
      SizeAt(t, locs - {k}, l);
      SizeAt(t, locs - {l}, k);
      assert locs - {k} - {l} == locs - {l} - {k};
    }
  }

  lemma {:induction false} SizeMore(t: Table, a: set<Loc>, b: set<Loc>)
    requires a <= b
    ensures SizeOf(t, a) <= SizeOf(t, b)
    decreases |b|
  {
    if a != b {
      assert b == a + (b - a);
      var l :| l in b - a;
      SizeAt(t, b, l);
      SizeMore(t, a, b - {l});
    }
  }

  /** The positions of some rows are no more, and no larger, than the rows. */
  lemma {:induction false} PositionsBound(t: Table, rows: seq<Row>)
    requires forall r <- rows :: r.at in t && t[r.at] == r
    ensures |Positions(rows)| <= |rows| && SizeOf(t, Positions(rows)) <= Bytes(rows)
    decreases |rows|
  {
    if rows != [] {
      var front, last := rows[..|rows| - 1], rows[|rows| - 1];
      PositionsBound(t, front);
      assert rows == front + [last];
      assert Positions(rows) == Positions(front) + {last.at};
      SizeAt(t, Positions(rows), last.at);
      SizeMore(t, Positions(rows) - {last.at}, Positions(front));
    }
  }

  lemma BoundedBy(t: Table, locs: set<Loc>, rows: seq<Row>)
    requires (forall r <- rows :: r.at in t && t[r.at] == r) && locs <= Positions(rows)
    ensures |locs| <= |rows| && SizeOf(t, locs) <= Bytes(rows)
  {
    PositionsBound(t, rows);
    SubsetCount(locs, Positions(rows));
    SizeMore(t, locs, Positions(rows));
  }

  lemma {:induction false} ShownHas(c: Config, trash: Folder, e: Entry, msgs: seq<Row>)
    ensures forall m :: m in Shown(c, trash, e, msgs) <==> m in msgs && Counted(c, trash, e, m)
    decreases |msgs|
  {
    if msgs != [] {
      var front, last := msgs[..|msgs| - 1], msgs[|msgs| - 1];
      ShownHas(c, trash, e, front);
      assert msgs == front + [last];
    }
  }

  lemma DistinctFront(rows: seq<Row>)
    requires DistinctRows(rows) && rows != []
    ensures var front, last := rows[..|rows| - 1], rows[|rows| - 1];
      DistinctRows(front) && forall r <- front :: r.at != last.at
  {
    forall i | 0 <= i < |rows| - 1 ensures rows[i].at != rows[|rows| - 1].at { }
  }

  lemma {:induction false} ShownDistinct(c: Config, trash: Folder, e: Entry, msgs: seq<Row>)
    requires DistinctRows(msgs)
    ensures DistinctRows(Shown(c, trash, e, msgs))
    decreases |msgs|
  {
    hide Counted;
    if msgs != [] {
      var front, last := msgs[..|msgs| - 1], msgs[|msgs| - 1];
      DistinctFront(msgs);
      ShownDistinct(c, trash, e, front);
      ShownHas(c, trash, e, front);
      var a := Shown(c, trash, e, front);
      forall i | 0 <= i < |a| ensures a[i].at != last.at {
        assert a[i] in a;
      }
    }
  }

  lemma PositionsSnoc(rows: seq<Row>, r: Row)
    requires forall x <- rows :: x.at != r.at
    ensures Positions(rows + [r]) == Positions(rows) + {r.at} && r.at !in Positions(rows)
    ensures Positions(rows + [r]) - {r.at} == Positions(rows)
  {
    assert forall x :: x in rows + [r] <==> x in rows || x == r;
  }

  /** Rows of different messages are as many, and as large, as their messages. */
  lemma {:induction false} PositionsExact(t: Table, rows: seq<Row>)
    requires DistinctRows(rows) && forall r <- rows :: r.at in t && t[r.at] == r
    ensures |Positions(rows)| == |rows| && SizeOf(t, Positions(rows)) == Bytes(rows)
    decreases |rows|
  {
    hide DistinctRows, SizeOf, Positions, Bytes;
    if rows == [] {
      NothingSized(t);
    } else {
      var front, last := rows[..|rows| - 1], rows[|rows| - 1];
      assert rows == front + [last];
      DistinctFront(rows);
      PositionsExact(t, front);
      PositionsSnoc(front, last);
      SizeAt(t, Positions(rows), last.at);
      BytesAppend(front, [last]);
      NothingSized(t);
      Snoc([], last);
    }
  }

  lemma NothingSized(t: Table)
    ensures Positions([]) == {} && SizeOf(t, {}) == 0 && Bytes([]) == 0 && forall r :: Bytes([r]) == r.size
  {
    forall r: Row ensures Bytes([r]) == r.size { assert [r][..0] == []; }
  }

  /** A sender's target, when no sender has two. */
  lemma {:induction false} ScopeIs(targets: seq<Target>, i: nat)
    requires i < |targets| && forall j :: 0 <= j < |targets| && j != i ==> targets[j].entry.sender != targets[i].entry.sender
    ensures ScopeOf(targets, targets[i].entry.sender) == targets[i].msgs
    decreases |targets|
  {
    if i < |targets| - 1 { ScopeIs(targets[..|targets| - 1], i); }
  }

  /** A plan's targets against its entries, no sender being in it twice. */
  ghost predicate Distinct(t: Table, entries: seq<Entry>, targets: seq<Target>) {
    DistinctSenders(entries) && TargetsOf(t, entries, targets)
  }

  lemma TargetOf(t: Table, entries: seq<Entry>, targets: seq<Target>, i: nat)
    requires Distinct(t, entries, targets) && i < |targets|
    ensures targets[i].entry in entries && Scoped(t, targets[i])
    ensures ScopeOf(targets, targets[i].entry.sender) == targets[i].msgs
    ensures targets[i].entry.sender in Waived(targets) <==> targets[i].entry.includeKept
  {
    WantedDistinct(entries);
    assert targets[i].entry == Wanted(entries)[i];
    ScopeIs(targets, i);
    if targets[i].entry.sender in Waived(targets) {
      var x :| x in targets && x.entry.includeKept && x.entry.sender == targets[i].entry.sender;
      var j :| 0 <= j < |targets| && targets[j] == x;
      assert targets[j].entry == Wanted(entries)[j];
      assert i == j;
    }
  }

  lemma {:induction false} RowInTarget(targets: seq<Target>, m: Row) returns (i: nat)
    requires m in AllRows(targets)
    ensures i < |targets| && m in targets[i].msgs
    decreases |targets|
  {
    if m in targets[|targets| - 1].msgs {
      i := |targets| - 1;
    } else {
      i := RowInTarget(targets[..|targets| - 1], m);
    }
  }

  /** The messages an entry's row of the preview stands for, read off the
      database: the sender's, in scope, in no folder a delete never reads from,
      neither flagged nor answered, and not transactional unless that is waived. */
  ghost function Promised(c: Config, t: Table, trash: Folder, e: Entry): set<Loc> {
    set l | l in t && t[l].at == l && t[l].sender == e.sender
            && (e.deleteAll || (e.deleteMatched && t[l].hasUnsub))
            && !WellKnown(c.lower(l.folder)) && (trash == NOWHERE || c.lower(l.folder) != c.lower(trash))
            && !Marked(t[l].flags)
            && (c.keepOn && !e.includeKept ==> t[l].keep == "")
  }

  /** A row of the preview counts exactly those, and their size. */
  lemma RowExact(c: Config, t: Table, entries: seq<Entry>, targets: seq<Target>, trash: Folder, e: Entry, row: PreviewRow)
    requires Distinct(t, entries, targets) && e in entries && RowIs(c, trash, targets, e, row)
    ensures row.messages == |Promised(c, t, trash, e)| && row.bytes == SizeOf(t, Promised(c, t, trash, e))
  {
    var scope := ScopeOf(targets, e.sender);
    ScopeExact(t, entries, targets, e);
    hide Distinct, SizeOf, Bytes, Shown, ScopeOf;
    ShownHas(c, trash, e, scope);
    ShownDistinct(c, trash, e, scope);
    PositionsExact(t, ShownFor(c, trash, targets, e));
    forall m | m in scope ensures m in Shown(c, trash, e, scope) <==> m.at in Promised(c, t, trash, e) {
      FlagVerdictMeaning(m.flags);
      NeverSourceMeaning(c.lower(m.at.folder));
    }
    assert Promised(c, t, trash, e) == Positions(Shown(c, trash, e, scope)) by {
      forall l | l in Promised(c, t, trash, e) ensures l in Positions(Shown(c, trash, e, scope)) {
        assert t[l] in scope;
      }
    }
  }

  lemma TargetDeletes(t: Table, entries: seq<Entry>, targets: seq<Target>, i: nat)
    requires Distinct(t, entries, targets) && i < |targets|
    ensures targets[i].entry in entries && Deletes(targets[i].entry)
  {
    assert targets[i].entry == Wanted(entries)[i];
    WantedHas(entries, targets[i].entry);
  }

  /** The rows in an entry's scope are the sender's that it asks for. */
  lemma ScopeExact(t: Table, entries: seq<Entry>, targets: seq<Target>, e: Entry)
    requires Distinct(t, entries, targets) && e in entries
    ensures DistinctRows(ScopeOf(targets, e.sender))
    ensures forall r :: r in ScopeOf(targets, e.sender) <==>
              r.at in t && t[r.at] == r && r.sender == e.sender && (e.deleteAll || (e.deleteMatched && r.hasUnsub))
  {
    hide ScopeOf;
    if Deletes(e) {
      WantedHas(entries, e);
      var i :| 0 <= i < |targets| && Wanted(entries)[i] == e;
      TargetOf(t, entries, targets, i);
    } else {
      ScopeFrom(targets, e.sender);
      forall i | 0 <= i < |targets| ensures targets[i].entry.sender != e.sender {
        TargetDeletes(t, entries, targets, i);
        if targets[i].entry.sender == e.sender { OneEntry(t, entries, targets, targets[i].entry, e); }
      }
    }
  }

  /** A message cleared to be moved is one its sender's row of the preview counts. */
  lemma AuthorisedIsCounted(c: Config, t: Table, entries: seq<Entry>, targets: seq<Target>, trash: Folder, special: seq<Folder>,
                            s: Server, cursors: map<Folder, Cursor>, l: Loc) returns (e: Entry)
    requires Distinct(t, entries, targets)
    requires Authorised(c, s, cursors, ProtectedFolders(c, trash, special), Waived(targets), AllRows(targets), l)
    ensures e in entries && l in t && t[l].at == l && t[l].sender == e.sender && t[l] in ShownFor(c, trash, targets, e)
  {
    var m :| m in AllRows(targets) && m.at == l && Cleared(c, s, m, m.sender in Waived(targets));
    var i := RowInTarget(targets, m);
    TargetOf(t, entries, targets, i);
    e := targets[i].entry;
    FlagVerdictMeaning(m.flags);
    ShownHas(c, trash, e, targets[i].msgs);
    assert Counted(c, trash, e, m);
  }

  /** The positions among locs that belong to a sender. */
  ghost function BySender(t: Table, locs: set<Loc>, sender: string): set<Loc> {
    set l | l in locs && l in t && t[l].sender == sender
  }

  ghost predicate AllAuthorised(c: Config, targets: seq<Target>, trash: Folder, special: seq<Folder>,
                                s: Server, cursors: map<Folder, Cursor>, intents: set<Loc>) {
    forall l <- intents :: Authorised(c, s, cursors, ProtectedFolders(c, trash, special), Waived(targets), AllRows(targets), l)
  }

  lemma ShownScoped(c: Config, t: Table, entries: seq<Entry>, targets: seq<Target>, trash: Folder, e: Entry)
    requires Distinct(t, entries, targets) && e in entries
    ensures forall m <- ShownFor(c, trash, targets, e) :: m.at in t && t[m.at] == m && m.sender == e.sender
  {
    ShownHas(c, trash, e, ScopeOf(targets, e.sender));
    ScopeFrom(targets, e.sender);
  }

  lemma {:induction false} ScopeFrom(targets: seq<Target>, sender: string)
    ensures ScopeOf(targets, sender) == [] ||
            (exists i :: 0 <= i < |targets| && targets[i].entry.sender == sender && ScopeOf(targets, sender) == targets[i].msgs)
    decreases |targets|
  {
    if targets != [] {
      var front, n := targets[..|targets| - 1], |targets| - 1;
      if targets[n].entry.sender != sender {
        ScopeFrom(front, sender);
        if ScopeOf(front, sender) != [] {
          var i :| 0 <= i < |front| && front[i].entry.sender == sender && ScopeOf(front, sender) == front[i].msgs;
          assert targets[i].entry.sender == sender;
        }
      }
    }
  }

  /** The preview is an upper bound for each sender: of everything a run records
      its intent to move, whatever the server answers, no more messages and no
      more bytes are a sender's than the sender's row shows. */
  lemma SenderBound(c: Config, t: Table, entries: seq<Entry>, targets: seq<Target>, trash: Folder, special: seq<Folder>,
                    s: Server, cursors: map<Folder, Cursor>, intents: set<Loc>, e: Entry, row: PreviewRow)
    requires Distinct(t, entries, targets) && AllAuthorised(c, targets, trash, special, s, cursors, intents)
    requires e in entries && RowIs(c, trash, targets, e, row)
    ensures |BySender(t, intents, e.sender)| <= row.messages && SizeOf(t, BySender(t, intents, e.sender)) <= row.bytes
  {
    hide Authorised, TargetsOf, Shown, Distinct;
    var mine, shown := BySender(t, intents, e.sender), ShownFor(c, trash, targets, e);
    forall l | l in mine ensures l in Positions(shown) {
      var d := AuthorisedIsCounted(c, t, entries, targets, trash, special, s, cursors, l);
      OneEntry(t, entries, targets, d, e);
      assert t[l] in shown && t[l].at == l;
    }
    ShownScoped(c, t, entries, targets, trash, e);
    BoundedBy(t, mine, shown);
  }

  lemma OneEntry(t: Table, entries: seq<Entry>, targets: seq<Target>, d: Entry, e: Entry)
    requires Distinct(t, entries, targets) && d in entries && e in entries && d.sender == e.sender
    ensures d == e
  {
    var i :| 0 <= i < |entries| && entries[i] == d;
    var j :| 0 <= j < |entries| && entries[j] == e;
    assert i == j;
  }

  /** And in total. */
  lemma TotalBound(c: Config, t: Table, entries: seq<Entry>, targets: seq<Target>, trash: Folder, special: seq<Folder>,
                   s: Server, cursors: map<Folder, Cursor>, intents: set<Loc>)
    requires Distinct(t, entries, targets) && AllAuthorised(c, targets, trash, special, s, cursors, intents)
    ensures |intents| <= |AllShown(c, trash, targets, entries)|
    ensures SizeOf(t, intents) <= Bytes(AllShown(c, trash, targets, entries))
  {
    hide Authorised, TargetsOf, Shown, Distinct;
    var shown := AllShown(c, trash, targets, entries);
    forall l | l in intents ensures l in Positions(shown) {
      var d := AuthorisedIsCounted(c, t, entries, targets, trash, special, s, cursors, l);
      AllShownHas(c, trash, targets, entries, t[l]);
      assert t[l] in shown && t[l].at == l;
    }
    forall m | m in shown ensures m.at in t && t[m.at] == m {
      AllShownHas(c, trash, targets, entries, m);
      var e :| e in entries && m in ShownFor(c, trash, targets, e);
      ShownScoped(c, t, entries, targets, trash, e);
    }
    BoundedBy(t, intents, shown);
  }

  lemma {:induction false} AllShownHas(c: Config, trash: Folder, targets: seq<Target>, entries: seq<Entry>, m: Row)
    ensures m in AllShown(c, trash, targets, entries) <==> exists e :: e in entries && m in ShownFor(c, trash, targets, e)
    decreases |entries|
  {
    if entries != [] {
      var front, last := entries[..|entries| - 1], entries[|entries| - 1];
      AllShownHas(c, trash, targets, front, m);
      assert forall e :: e in entries <==> e in front || e == last;
    }
  }

  /** Of a run itself, on either path: no command acts on more messages of a
      sender than its row of the preview shows, nor on more bytes; nor in total. */
  lemma RunBound(r: Runner, w0: World, before: History, es: History, entries: seq<Entry>, targets: seq<Target>, t: Table,
                 special: seq<Folder>, e: Entry, row: PreviewRow)
    requires Accountable(r, w0, before, es, t, Waived(targets), AllRows(targets)) && Distinct(t, entries, targets)
    requires Intents(r.h.world.log) == {} || r.noSource == ProtectedFolders(r.c, r.trash, special)
    requires e in entries && RowIs(r.c, r.trash, targets, e, row)
    ensures |BySender(t, Acted(es), e.sender)| <= row.messages && SizeOf(t, BySender(t, Acted(es), e.sender)) <= row.bytes
    ensures |Acted(es)| <= |AllShown(r.c, r.trash, targets, entries)|
    ensures SizeOf(t, Acted(es)) <= Bytes(AllShown(r.c, r.trash, targets, entries))
  {
    hide Accountable, Authorised, Distinct, RowIs, ProtectedFolders;
    ActedAuthorised(r, w0, before, es, targets, t);
    if Acted(es) == {} { ActedNothing(r.c, targets, r.trash, special, w0.server, r.st.cursors); }
    SenderBound(r.c, t, entries, targets, r.trash, special, w0.server, r.st.cursors, Acted(es), e, row);
    TotalBound(r.c, t, entries, targets, r.trash, special, w0.server, r.st.cursors, Acted(es));
  }

  lemma ActedNothing(c: Config, targets: seq<Target>, trash: Folder, special: seq<Folder>, s: Server,
      cursors: map<Folder, Cursor>)
    ensures AllAuthorised(c, targets, trash, special, s, cursors, {})
  {
  }

  lemma ActedAuthorised(r: Runner, w0: World, before: History, es: History, targets: seq<Target>, t: Table)
    requires Accountable(r, w0, before, es, t, Waived(targets), AllRows(targets))
    ensures Acted(es) <= Intents(r.h.world.log)
    ensures forall l <- Acted(es) :: Authorised(r.c, w0.server, r.st.cursors, r.noSource, Waived(targets), AllRows(targets), l)
  {
    AccountableMoment(r, w0, before, es, t, Waived(targets), AllRows(targets), es);
    forall l | l in Acted(es) ensures l in Intents(r.h.world.log) {
      IntentsLater(w0, es, es, Replay(w0, es), l);
    }
  }
}
