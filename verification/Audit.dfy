/** The audit log's records (internal/apply/audit.go) and what a reader of the
    log can conclude from them. */
module Audit {
  import opened Mailbox

  datatype Action = Unsubscribe | Move | Skip | Error | Undo

  datatype Status = NoStatus | Pending | Done | Outcome(text: string)

  datatype Line = Line(
    account: string, action: Action, status: Status, sender: string, folder: Folder,
    uid: nat, uids: seq<nat>, id: string, src: Folder, dst: Folder, error: string)

  const BLANK := Line("", Error, NoStatus, "", NOWHERE, 0, [], "", NOWHERE, NOWHERE, "")

  predicate IsIntent(l: Line) { l.action == Move && l.status == Pending }

  predicate IsDone(l: Line) { l.action == Move && l.status == Done }

  /** Every position a pending line names. */
  ghost function Intents(log: seq<Line>): set<Loc> {
    if log == [] then {}
    else
      var l := log[|log| - 1];
      Intents(log[..|log| - 1]) + (if IsIntent(l) then {Loc(l.src, l.uid)} else {})
  }

  /** Every position a done line confirms. */
  ghost function Confirmed(log: seq<Line>): set<Loc> {
    if log == [] then {}
    else
      var l := log[|log| - 1];
      Confirmed(log[..|log| - 1]) + (if IsDone(l) then LocsOf(l.src, l.uids) else {})
  }

  /** The positions named by pending lines written after the last done line. */
  ghost function Open(log: seq<Line>): set<Loc> {
    if log == [] then {}
    else
      var l := log[|log| - 1];
      if IsDone(l) then {}
      else Open(log[..|log| - 1]) + (if IsIntent(l) then {Loc(l.src, l.uid)} else {})
  }

  lemma Snoc<T>(s: seq<T>, x: T)
    ensures (s + [x])[..|s + [x]| - 1] == s
    ensures (s + [x])[|s + [x]| - 1] == x
  {
  }

  /** What one more line adds to each reading of the log. */
  lemma ReadSnoc(log: seq<Line>, l: Line)
    ensures Intents(log + [l]) == Intents(log) + (if IsIntent(l) then {Loc(l.src, l.uid)} else {})
    ensures Confirmed(log + [l]) == Confirmed(log) + (if IsDone(l) then LocsOf(l.src, l.uids) else {})
    ensures Open(log + [l]) ==
            if IsDone(l) then {} else Open(log) + (if IsIntent(l) then {Loc(l.src, l.uid)} else {})
  {
    Snoc(log, l);
  }

  /** A longer log names at least what a prefix of it names. */
  lemma {:induction false} ReadPrefix(log: seq<Line>, k: nat)
    requires k <= |log|
    ensures Intents(log[..k]) <= Intents(log)
    ensures Confirmed(log[..k]) <= Confirmed(log)
    decreases |log|
  {
    if k < |log| {
      var p := log[..|log| - 1];
      assert p[..k] == log[..k];
      ReadPrefix(p, k);
    } else {
      assert log[..k] == log;
    }
  }

  /** What a counter map has for k. */
  function At(m: map<string, nat>, k: string): nat {
    if k in m then m[k] else 0
  }

  ghost predicate EqualCounts(a: map<string, nat>, b: map<string, nat>) {
    forall k :: At(a, k) == At(b, k)
  }

  /** The sum of a counter map's values. */
  ghost function Total(m: map<string, nat>): nat {
    if m == map[] then 0 else var k :| k in m; m[k] + Total(m - {k})
  }

  lemma {:induction false} TotalAt(m: map<string, nat>, k: string)
    requires k in m
    ensures Total(m) == m[k] + Total(m - {k})
  {
    var j :| j in m && Total(m) == m[j] + Total(m - {j});
    if j != k {
      TotalAt(m - {j}, k);
      TotalAt(m - {k}, j);
      assert m - {j} - {k} == m - {k} - {j};
    }
  }

  function Bump(m: map<string, nat>, k: string): map<string, nat> {
    m[k := if k in m then m[k] + 1 else 1]
  }

  lemma TotalBump(m: map<string, nat>, k: string)
    ensures Total(Bump(m, k)) == Total(m) + 1
    ensures forall j :: At(Bump(m, k), j) == At(m, j) + if j == k then 1 else 0
  {
    TotalAt(Bump(m, k), k);
    assert Bump(m, k) - {k} == m - {k};
    if k in m { TotalAt(m, k); } else { assert m - {k} == m; }
  }

  /** What a log says the run did: messages confirmed moved, things skipped by
      reason, errors, and unsubscribe attempts by outcome. */
  datatype Counts = Counts(moved: nat, skipped: map<string, nat>, errors: nat, unsubs: map<string, nat>)

  function StatusText(s: Status): string {
    match s
    case NoStatus => ""
    case Pending => "pending"
    case Done => "done"
    case Outcome(text) => text
  }

  function Count(t: Counts, l: Line): Counts {
    if IsDone(l) then t.(moved := t.moved + |l.uids|)
    else if l.action == Skip then t.(skipped := Bump(t.skipped, l.error))
    else if l.action == Error then t.(errors := t.errors + 1)
    else if l.action == Unsubscribe then t.(unsubs := Bump(t.unsubs, StatusText(l.status)))
    else t
  }

  ghost function Tally(log: seq<Line>): Counts {
    if log == [] then Counts(0, map[], 0, map[]) else Count(Tally(log[..|log| - 1]), log[|log| - 1])
  }

  lemma TallySnoc(log: seq<Line>, l: Line)
    ensures Tally(log + [l]) == Count(Tally(log), l)
  {
    Snoc(log, l);
  }
}
