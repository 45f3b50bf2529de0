/** What undo reads out of an audit log (internal/undo/undo.go): which copies
    of which messages the run may have put where, and how many of them it is
    entitled to bring back. */
module UndoPlan {
  import opened Mailbox
  import opened Audit
  import opened Uids
  import opened Rules

  /** A message as undo looks for it: by Message-ID, in the folder it was moved to. */
  datatype Key = Key(dst: Folder, id: string)

  /** source is the folder of the first line for the message; unconfirmed are
      the UIDs recorded but in no done line. */
  datatype Want = Want(source: Folder, count: nat, unconfirmed: seq<nat>)

  function Source(l: Line): Folder {
    if l.src == NOWHERE then l.folder else l.src
  }

  predicate Mine(l: Line, account: string) {
    l.account == "" || l.account == account
  }

  predicate Confirms(l: Line, account: string) {
    IsDone(l) && Mine(l, account) && Source(l) != NOWHERE
  }

  /** The positions the log confirms as moved. */
  function ConfirmedBy(lines: seq<Line>, account: string): set<Loc> {
    if lines == [] then {}
    else
      var l := lines[|lines| - 1];
      ConfirmedBy(lines[..|lines| - 1], account) + if Confirms(l, account) then LocsOf(Source(l), l.uids) else {}
  }

  /** A move line that names a message, whatever its status. */
  predicate Names(l: Line, account: string) {
    l.action == Move && l.id != "" && Mine(l, account) && Source(l) != NOWHERE && l.dst != NOWHERE
  }

  function KeyOf(l: Line): Key {
    Key(l.dst, l.id)
  }

  function AddLine(wants: map<Key, Want>, l: Line, confirmed: set<Loc>): map<Key, Want> {
    var w := if KeyOf(l) in wants then wants[KeyOf(l)] else Want(Source(l), 0, []);
    var more := if l.uid != 0 && Loc(Source(l), l.uid) !in confirmed then [l.uid] else [];
    wants[KeyOf(l) := Want(w.source, w.count + 1, w.unconfirmed + more)]
  }

  function WantsOf(lines: seq<Line>, account: string, confirmed: set<Loc>): map<Key, Want> {
    if lines == [] then map[]
    else
      var l, before := lines[|lines| - 1], WantsOf(lines[..|lines| - 1], account, confirmed);
      if Names(l, account) then AddLine(before, l, confirmed) else before
  }

  /** Every message wanted has a Message-ID. */
  ghost predicate AllNamed(wants: map<Key, Want>) {
    forall k <- wants :: k.id != ""
  }

  lemma {:induction false} WantsNamed(lines: seq<Line>, account: string, confirmed: set<Loc>)
    ensures AllNamed(WantsOf(lines, account, confirmed))
  {
    if lines != [] { WantsNamed(lines[..|lines| - 1], account, confirmed); }
  }

  /** How many of the UIDs recorded for id and never confirmed are still in the
      source folder, and so never moved. */
  function Never(unconfirmed: seq<nat>, present: set<nat>): nat {
    if unconfirmed == [] then 0
    else
      Never(unconfirmed[..|unconfirmed| - 1], present)
      + if unconfirmed[|unconfirmed| - 1] in present then 1 else 0
  }

  /** A folder undo does not restore into. */
  predicate Refuses(lower: Folder -> string, blocked: set<string>, f: Folder) {
    lower(f) in NEVER_SOURCE || lower(f) in blocked
  }

  /** What undo must not restore into: a folder with a well-known name, or one
      with the name of a mailbox the server marks Trash, Junk, Drafts or Sent. */
  ghost predicate Forbidden(lower: Folder -> string, special: seq<Folder>, f: Folder) {
    WellKnown(lower(f)) || exists s <- special :: s != NOWHERE && lower(f) == lower(s)
  }

  /** The UIDs at which folder f holds a message with the Message-ID id. */
  ghost function Holding(s: Server, f: Folder, id: string): set<nat> {
    set l | l in Copies(s, f, id) :: l.uid
  }

  /** How many copies undo may bring back: none into a refused folder; as many
      as were recorded when the source could not be checked; otherwise as many
      as were recorded less those that never moved. */
  ghost function Allowance(w: Want, id: string, s: Server, lower: Folder -> string, blocked: set<string>,
                           unchecked: set<Folder>): nat {
    if Refuses(lower, blocked, w.source) then 0
    else if w.source in unchecked then w.count
    else
      var never := Never(w.unconfirmed, Holding(s, w.source, id));
      if never <= w.count then w.count - never else 0
  }

  /** The log read into wants, as one pass for the confirmations and one for
      the messages. */
  method ReadLog(lines: seq<Line>, account: string) returns (wants: map<Key, Want>)
    ensures wants == WantsOf(lines, account, ConfirmedBy(lines, account))
  {
    var confirmed: set<Loc> := {};
    for i := 0 to |lines|
      invariant confirmed == ConfirmedBy(lines[..i], account)
    {
      assert lines[..i + 1][..i] == lines[..i];
      if Confirms(lines[i], account) {
        confirmed := confirmed + LocsOf(Source(lines[i]), lines[i].uids);
      }
    }
    assert lines[..|lines|] == lines;
    wants := map[];
    for i := 0 to |lines|
      invariant wants == WantsOf(lines[..i], account, confirmed)
    {
      assert lines[..i + 1][..i] == lines[..i];
      if Names(lines[i], account) {
        wants := AddLine(wants, lines[i], confirmed);
      }
    }
  }

  /** top is the k highest of locs, or all of them if there are fewer. */
  ghost predicate Newest(locs: set<Loc>, k: nat, top: set<Loc>) {
    && top <= locs
    && |top| == (if k <= |locs| then k else |locs|)
    && forall x, y :: x in top && y in locs && y !in top ==> y.uid < x.uid
  }

  /** There is one such choice. */
  lemma NewestUnique(locs: set<Loc>, k: nat, a: set<Loc>, b: set<Loc>)
    requires Newest(locs, k, a) && Newest(locs, k, b)
    ensures a == b
  {
    if a <= b {
      SubsetCount(a, b);
    } else if b <= a {
      SubsetCount(b, a);
    } else {
      var x :| x in a && x !in b;
      var y :| y in b && y !in a;
      assert false;
    }
  }
}
