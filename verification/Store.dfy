/** The local database (internal/store/message.go, internal/store/folder.go),
    for one account: the messages table keyed by position and the folders table. */
module Store {
  import opened Mailbox

  datatype Row = Row(
    at: Loc, id: string, sender: string, hasUnsub: bool, flags: seq<string>, size: nat, keep: string)

  datatype Cursor = Cursor(validity: nat, last: nat)

  datatype Lookup = Found(cursor: Cursor) | NotFound | Failed

  type Table = map<Loc, Row>

  ghost predicate TableOk(t: Table) {
    forall l <- t :: t[l].at == l
  }

  predicate InScope(r: Row, sender: string, matchedOnly: bool) {
    r.sender == sender && (matchedOnly ==> r.hasUnsub)
  }

  ghost predicate DistinctRows(s: seq<Row>) {
    forall i, j :: 0 <= i < j < |s| ==> s[i].at != s[j].at
  }

  /** INSERT OR REPLACE of every row, in order. */
  function Inserted(t: Table, rows: seq<Row>): Table {
    if rows == [] then t
    else
      var r := rows[|rows| - 1];
      Inserted(t, rows[..|rows| - 1])[r.at := r]
  }

  /** The messages and folders tables. */
  datatype Db = Db(rows: Table, cursors: map<Folder, Cursor>)

  /** The ghost field passed has the database that each transaction a scan makes
      left, so that a crash leaves the last of these. */
  class Store {
    var rows: Table
    var cursors: map<Folder, Cursor>
    const breaks: bool         // an operation may fail
    const unread: set<Folder>  // whose cursor may fail to be read
    ghost var passed: seq<Db>

    ghost predicate Valid()
      reads this
    {
      TableOk(rows)
    }

    constructor (broken: bool, unreadable: set<Folder>)
      ensures Valid() && rows == map[] && cursors == map[] && breaks == broken && unread == unreadable
    {
      rows, cursors, breaks, unread, passed := map[], map[], broken, unreadable, [];
    }

    method Breaks() returns (broken: bool)
      ensures broken ==> breaks
    {
      broken := *;
      broken := broken && breaks;
    }

    /** The sender's rows: with matchedOnly only those that carried List-Unsubscribe. */
    method MessagesForSender(sender: string, matchedOnly: bool) returns (ok: bool, out: seq<Row>)
      requires Valid()
      ensures !ok ==> breaks
      ensures ok ==> DistinctRows(out)
      ensures ok ==> forall r :: r in out <==> r.at in rows && rows[r.at] == r && InScope(r, sender, matchedOnly)
    {
      out := [];
      var broken := Breaks();
      ok := !broken;
      if !ok { return; }
      var rest := rows.Keys;
      while rest != {}
        invariant rest <= rows.Keys
        invariant DistinctRows(out)
        invariant forall r :: r in out <==>
            r.at in rows && r.at !in rest && rows[r.at] == r && InScope(r, sender, matchedOnly)
      {
        var l :| l in rest;
        rest := rest - {l};
        if InScope(rows[l], sender, matchedOnly) {
          ghost var before := out;
          out := out + [rows[l]];
          assert forall r :: r in out <==> r in before || r == rows[l];
        }
      }
    }

    /** One transaction: every row of msgs, or on an error none. */
    method InsertMessages(msgs: seq<Row>) returns (ok: bool)
      requires Valid()
      modifies this`rows, this`passed
      ensures Valid()
      ensures rows == if ok then Inserted(old(rows), msgs) else old(rows)
      ensures passed == if ok && msgs != [] then old(passed) + [Db(rows, cursors)] else old(passed)
      ensures !ok ==> breaks && msgs != []
    {
      var broken := Breaks();
      ok := !broken;
      if msgs == [] { return true; }
      if !ok { return; }
      ghost var t0 := rows;
      for i := 0 to |msgs|
        invariant rows == Inserted(t0, msgs[..i]) && passed == old(passed)
        invariant TableOk(rows)
      {
        assert msgs[..i + 1][..i] == msgs[..i];
        rows := rows[msgs[i].at := msgs[i]];
      }
      assert msgs[..|msgs|] == msgs;
      passed := passed + [Db(rows, cursors)];
    }

    /** One transaction: drops the rows of uids in folder, or on an error none. */
    method DeleteMessageRows(folder: Folder, uids: seq<nat>) returns (ok: bool)
      requires Valid()
      modifies this`rows
      ensures Valid()
      ensures rows == if ok then old(rows) - LocsOf(folder, uids) else old(rows)
      ensures !ok ==> breaks && uids != []
    {
      var broken := Breaks();
      ok := !broken;
      if uids == [] { ok := true; }
      if !ok { return; }
      ghost var t0 := rows;
      for i := 0 to |uids|
        invariant TableOk(rows)
        invariant rows == t0 - LocsOf(folder, uids[..i])
      {
        rows := rows - {Loc(folder, uids[i])};
        assert uids[..i + 1] == uids[..i] + [uids[i]];
        assert LocsOf(folder, uids[..i + 1]) == LocsOf(folder, uids[..i]) + {Loc(folder, uids[i])};
      }
      assert uids[..|uids|] == uids;
    }

    method GetFolder(folder: Folder) returns (res: Lookup)
      ensures res.Found? ==> folder in cursors && res.cursor == cursors[folder]
      ensures res.NotFound? ==> folder !in cursors
      ensures res.Failed? ==> folder in unread
    {
      var broken := *;
      if broken && folder in unread { return Failed; }
      res := if folder in cursors then Found(cursors[folder]) else NotFound;
    }

    /** One transaction: forgets the folder's rows and starts its cursor over. */
    method ResetFolder(folder: Folder, validity: nat) returns (ok: bool)
      requires Valid()
      modifies this
      ensures Valid()
      ensures ok ==> rows == (map l | l in old(rows) && l.folder != folder :: old(rows)[l])
                     && cursors == old(cursors)[folder := Cursor(validity, 0)] && passed == old(passed) + [Db(rows, cursors)]
      ensures !ok ==> rows == old(rows) && cursors == old(cursors) && passed == old(passed) && breaks
    {
      var broken := Breaks();
      ok := !broken;
      if !ok { return; }
      rows := map l | l in rows && l.folder != folder :: rows[l];
      cursors := cursors[folder := Cursor(validity, 0)];
      passed := passed + [Db(rows, cursors)];
    }

    method SetFolderCursor(folder: Folder, validity: nat, last: nat) returns (ok: bool)
      modifies this`cursors, this`passed
      ensures passed == if ok then old(passed) + [Db(rows, cursors)] else old(passed)
      ensures cursors == if ok then old(cursors)[folder := Cursor(validity, last)] else old(cursors)
      ensures !ok ==> breaks
    {
      var broken := Breaks();
      ok := !broken;
      if ok {
        cursors := cursors[folder := Cursor(validity, last)];
        passed := passed + [Db(rows, cursors)];
      }
    }
  }
}
