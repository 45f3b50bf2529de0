/** What the run history shows of a past run, read back from its audit log
    (internal/tui/backend_admin.go). */
module RunHistory {
  import opened Mailbox
  import opened Audit

  datatype Link = Link(sender: string, status: string)

  datatype Detail = Detail(moved: nat, skipped: map<string, nat>, unsub: map<string, nat>, manual: seq<Link>)

  const NEEDS_ATTENTION: set<string> := {"manual", "probable", "failed"}

  /** The unsubscribe attempts the user may have to look at. */
  function ManualOf(lines: seq<Line>): seq<Link> {
    if lines == [] then []
    else
      var l := lines[|lines| - 1];
      ManualOf(lines[..|lines| - 1])
      + if l.action == Unsubscribe && StatusText(l.status) in NEEDS_ATTENTION
        then [Link(l.sender, StatusText(l.status))] else []
  }

  function NonEmpty(s: string, otherwise: string): string {
    if s == "" then otherwise else s
  }

  lemma {:induction false} ManualMeaning(lines: seq<Line>, x: Link)
    ensures x in ManualOf(lines) <==>
              exists l <- lines :: l.action == Unsubscribe && x == Link(l.sender, StatusText(l.status))
                && (x.status == "manual" || x.status == "probable" || x.status == "failed")
    decreases |lines|
  {
    if lines != [] {
      var front, last := lines[..|lines| - 1], lines[|lines| - 1];
      ManualMeaning(front, x);
      assert lines == front + [last];
      assert forall l :: l in lines <==> l in front || l == last;
    }
  }

  /** What the history counts under k: the skips with the status k, those
      without a status being "skipped", and the errors as "error". */
  ghost function CountedUnder(lines: seq<Line>, k: string): nat {
    if lines == [] then 0
    else
      var l := lines[|lines| - 1];
      CountedUnder(lines[..|lines| - 1], k)
      + if (l.action == Skip && (StatusText(l.status) == k || (StatusText(l.status) == "" && k == "skipped")) && k != "")
           || (l.action == Error && k == "error") then 1 else 0
  }

  /** The run as its log tells it. The moves, the skips and errors by their
      status, and the unsubscribe outcomes are what the log adds up to. */
  method RunDetail(lines: seq<Line>) returns (d: Detail)
    ensures d.moved == Tally(lines).moved && d.unsub == Tally(lines).unsubs
    ensures Total(d.skipped) == Total(Tally(lines).skipped) + Tally(lines).errors
    ensures forall k :: At(d.skipped, k) == CountedUnder(lines, k)
    ensures d.manual == ManualOf(lines)
  {
    d := Detail(0, map[], map[], []);
    for i := 0 to |lines|
      invariant d.moved == Tally(lines[..i]).moved && d.unsub == Tally(lines[..i]).unsubs
      invariant Total(d.skipped) == Total(Tally(lines[..i]).skipped) + Tally(lines[..i]).errors
      invariant forall k :: At(d.skipped, k) == CountedUnder(lines[..i], k)
      invariant d.manual == ManualOf(lines[..i])
    {
      var l := lines[i];
      assert lines[..i + 1][..i] == lines[..i];
      match l.action {
        case Move =>
          if l.status == Done { d := d.(moved := d.moved + |l.uids|); }
        case Skip =>
          TotalBump(d.skipped, NonEmpty(StatusText(l.status), "skipped"));
          TotalBump(Tally(lines[..i]).skipped, l.error);
          d := d.(skipped := Bump(d.skipped, NonEmpty(StatusText(l.status), "skipped")));
        case Unsubscribe =>
          d := d.(unsub := Bump(d.unsub, StatusText(l.status)));
          if StatusText(l.status) in NEEDS_ATTENTION {
            d := d.(manual := d.manual + [Link(l.sender, StatusText(l.status))]);
          }
        case Error =>
          TotalBump(d.skipped, "error");
          d := d.(skipped := Bump(d.skipped, "error"));
        case Undo =>
      }
    }
    assert lines[..|lines|] == lines;
  }

  /** A run writes its skips without a status, so the history of a run shows them
      all under one name, and the reasons only the log has. */
  lemma {:induction false} RunSkips(lines: seq<Line>)
    requires forall l <- lines :: l.action == Skip ==> l.status == NoStatus
    ensures CountedUnder(lines, "skipped") == Total(Tally(lines).skipped)
    ensures CountedUnder(lines, "error") == Tally(lines).errors
  {
    if lines != [] {
      var front, last := lines[..|lines| - 1], lines[|lines| - 1];
      RunSkips(front);
      if last.action == Skip {
        assert last in lines;
        TotalBump(Tally(front).skipped, last.error);
      }
    }
  }
}
