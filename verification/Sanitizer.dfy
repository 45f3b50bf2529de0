/** The demo recorder's splitter of terminal output (tools/demo/record.py):
    bytes for the emulator, operations it cannot do itself, replies to the
    program, and the incomplete escape sequence at the end of a read. */
module Sanitizer {

  type Byte = b: nat | b < 0x100

  const ESC: Byte := 0x1B
  const BEL: Byte := 0x07
  const BACKSLASH: Byte := 0x5C
  const QUESTION: Byte := 0x3F

  const CSI: Byte := 0x5B
  const OSC: Byte := 0x5D
  const STRINGS: set<Byte> := {0x50, 0x58, 0x5E, 0x5F}     // DCS, SOS, PM, APC
  const CHARSETS: set<Byte> := {0x28, 0x29, 0x25, 0x23}

  /** Finals the emulator can dispatch: @ABCDEFGHJKLMPXadefghlmr` */
  const CSI_OK: set<Byte> :=
    {0x40, 0x41, 0x42, 0x43, 0x44, 0x45, 0x46, 0x47, 0x48, 0x4A, 0x4B, 0x4C, 0x4D, 0x50, 0x58,
     0x61, 0x64, 0x65, 0x66, 0x67, 0x68, 0x6C, 0x6D, 0x72, 0x60}
  const CSI_QUERY: set<Byte> := {0x63, 0x6E}                // c n
  const CSI_MANUAL: set<Byte> := {0x53, 0x54, 0x5A}         // S T Z
  const ESC_OK: set<Byte> := {0x37, 0x38, 0x63, 0x44, 0x45, 0x48, 0x4D}   // 78cDEHM
  const KITTY: Byte := 0x75                                 // u

  /** What the recorder is told to do: feed bytes, or do an operation itself. */
  datatype Action = Feed(bytes: seq<Byte>) | Op(final: Byte, count: nat)

  /** One byte to feed, or one operation. */
  datatype Piece = Fed(b: Byte) | Done(final: Byte, count: nat)

  /** How the repeat count of an operation is read. */
  type Counts = seq<Byte> -> nat

  /** Where the emulator's cursor is. */
  datatype Cursor = Cursor(row: nat, column: nat)

  /** What a query is answered: always the same bytes, or where the cursor is. */
  datatype Answer = Said(bytes: seq<Byte>) | Position

  function FedAll(bs: seq<Byte>): seq<Piece> {
    seq(|bs|, i requires 0 <= i < |bs| => Fed(bs[i]))
  }

  /** The actions with the boundaries between feeds forgotten. */
  function Flat(actions: seq<Action>): seq<Piece> {
    if actions == [] then []
    else
      Flat(actions[..|actions| - 1]) +
      match actions[|actions| - 1]
      case Feed(bs) => FedAll(bs)
      case Op(final, n) => [Done(final, n)]
  }

  /** What the bytes ahead come to: not enough of them yet, or one unit of
      that length. */
  datatype Read = More | Unit(length: nat, pieces: seq<Piece>, answers: seq<Answer>, dropped: set<seq<Byte>>)

  predicate IsParameter(b: Byte) {
    0x20 <= b <= 0x3F
  }

  function SkipParameters(buf: seq<Byte>, j: nat): (k: nat)
    requires j <= |buf|
    ensures j <= k <= |buf| && (k < |buf| ==> !IsParameter(buf[k]))
    decreases |buf| - j
  {
    if j == |buf| || !IsParameter(buf[j]) then j else SkipParameters(buf, j + 1)
  }

  /** Just past the end of a control string and the length of its terminator,
      BEL or ESC \; or 0 if it is not all there. */
  function FindSt(buf: seq<Byte>, j: nat): (r: (nat, nat))
    requires j <= |buf|
    ensures r.0 > 0 ==> j < r.0 <= |buf| && 1 <= r.1 <= 2 && j + r.1 <= r.0
    decreases |buf| - j
  {
    if j == |buf| then (0, 0)
    else if buf[j] == BEL then (j + 1, 1)
    else if buf[j] == ESC then
      if j + 1 == |buf| then (0, 0)
      else if buf[j + 1] == BACKSLASH then (j + 2, 2)
      else FindSt(buf, j + 1)
    else FindSt(buf, j + 1)
  }

  predicate Starts(s: seq<Byte>, p: seq<Byte>) {
    p <= s
  }

  predicate IsColorQuery(body: seq<Byte>) {
    body != [] && body[|body| - 1] == QUESTION && (Starts(body, [0x31, 0x30, 0x3B]) || Starts(body, [0x31, 0x31, 0x3B]))
  }

  const FOREGROUND: seq<Byte> :=
    [ESC, OSC, 0x31, 0x30, 0x3B, 0x72, 0x67, 0x62, 0x3A, 0x65, 0x32, 0x65, 0x32, 0x2F, 0x64, 0x66, 0x64, 0x66, 0x2F,
     0x64, 0x36, 0x64, 0x36, ESC, BACKSLASH]              // 10;rgb:e2e2/dfdf/d6d6
  const BACKGROUND: seq<Byte> :=
    [ESC, OSC, 0x31, 0x31, 0x3B, 0x72, 0x67, 0x62, 0x3A, 0x31, 0x61, 0x31, 0x61, 0x2F, 0x31, 0x62, 0x31, 0x62, 0x2F,
     0x31, 0x65, 0x31, 0x65, ESC, BACKSLASH]              // 11;rgb:1a1a/1b1b/1e1e

  /** Device attributes, the cursor or the status, or whether the keyboard
      protocol is on. */
  function CsiAnswer(s: seq<Byte>): seq<Answer>
    requires |s| >= 3
  {
    var final := s[|s| - 1];
    if final == 0x63 then
      [Said(if 0x3E in s then [ESC, CSI, 0x3E, 0x30, 0x3B, 0x31, 0x30, 0x3B, 0x31, 0x63]
            else [ESC, CSI, QUESTION, 0x36, 0x32, 0x3B, 0x32, 0x32, 0x63])]
    else if final == 0x6E then [if 0x36 in s then Position else Said([ESC, CSI, 0x30, 0x6E])]
    else if s == [ESC, CSI, QUESTION, KITTY] then [Said([ESC, CSI, QUESTION, 0x30, KITTY])]
    else []
  }

  /** What a whole control sequence is for: operations the recorder does itself,
      queries it answers, and sequences the emulator would choke on. */
  function CsiUnit(count: Counts, s: seq<Byte>): (r: Read)
    requires |s| >= 3
    ensures r.Unit? && r.length == |s|
  {
    var final := s[|s| - 1];
    if final in CSI_MANUAL && QUESTION !in s then
      var n := count(s[2..|s| - 1]);
      Unit(|s|, [Done(final, if n < 1 then 1 else n)], [], {})
    else if final in CSI_QUERY || final == KITTY then Unit(|s|, [], CsiAnswer(s), {s})
    else if final in CSI_OK && 0x3E !in s && 0x3D !in s && 0x24 !in s then Unit(|s|, FedAll(s), [], {})
    else Unit(|s|, [], [], {s})
  }

  function ReadCsi(count: Counts, s: seq<Byte>): (r: Read)
    requires |s| >= 2
    ensures r.Unit? ==> 2 < r.length <= |s|
  {
    var j := SkipParameters(s, 2);
    if j >= |s| then More else CsiUnit(count, s[..j + 1])
  }

  function ReadOsc(count: Counts, s: seq<Byte>): (r: Read)
    requires |s| >= 2
    ensures r.Unit? ==> 2 < r.length <= |s|
  {
    var (end, term) := FindSt(s, 2);
    if end == 0 then More
    else
      var body := s[2..end - term];
      if IsColorQuery(body) then
        Unit(end, [], [Said(if body[1] == 0x31 then BACKGROUND else FOREGROUND)], {body})
      else Unit(end, FedAll(s[..end]), [], {})
  }

  /** Reads one unit off the front of s. It always moves on. */
  function ReadUnit(count: Counts, s: seq<Byte>): (r: Read)
    requires s != []
    ensures r.Unit? ==> 0 < r.length <= |s|
  {
    if s[0] != ESC then Unit(1, [Fed(s[0])], [], {})
    else if |s| == 1 then More
    else
      var c := s[1];
      if c == CSI then ReadCsi(count, s)
      else if c == OSC then ReadOsc(count, s)
      else if c in STRINGS then
        var (end, _) := FindSt(s, 2);
        if end == 0 then More else Unit(end, [], [], {[ESC, c]})
      else if c in CHARSETS then
        if |s| == 2 then More else Unit(3, FedAll(s[..3]), [], {})
      else if c in ESC_OK then Unit(2, FedAll(s[..2]), [], {})
      else Unit(2, [], [], {[ESC, c]})
  }

  /** The bytes of a text. */
  ghost predicate Spells(bs: seq<Byte>, s: string) {
    |bs| == |s| && forall i :: 0 <= i < |s| ==> bs[i] as int == s[i] as int
  }

  ghost predicate Answers(answers: seq<Answer>, s: string) {
    |answers| == 1 && answers[0].Said? && Spells(answers[0].bytes, s)
  }

  predicate OneOf(b: Byte, s: string) {
    b as char in s
  }

  predicate Holds(bs: seq<Byte>, c: char) {
    exists b <- bs :: b as char == c
  }

  /** What comes of a control sequence, of parameter bytes p and a final byte f:
      an operation is done with its count, a query answered and not fed, what the
      emulator knows fed, and the rest dropped. */
  ghost predicate Handled(count: Counts, p: seq<Byte>, f: Byte, r: Read) {
    var s := [ESC, CSI] + p + [f];
    && r.Unit? && r.length == |s|
    && if OneOf(f, "STZ") && !Holds(p, '?') then r == Unit(|s|, [Done(f, if count(p) < 1 then 1 else count(p))], [], {})
       else if OneOf(f, "@ABCDEFGHJKLMPXadefghlmr`") && !Holds(p, '>') && !Holds(p, '=') && !Holds(p, '$') then
         r == Unit(|s|, FedAll(s), [], {})
       else
         && r.pieces == [] && r.dropped == {s}
         && match f as char
            case 'c' => Answers(r.answers, if Holds(p, '>') then "\U{1B}[>0;10;1c" else "\U{1B}[?62;22c")
            case 'n' => if Holds(p, '6') then r.answers == [Position] else Answers(r.answers, "\U{1B}[0n")
            case 'u' => if Spells(p, "?") then Answers(r.answers, "\U{1B}[?0u") else r.answers == []
            case _ => r.answers == []
  }

  lemma {:induction false} ParametersEnd(p: seq<Byte>, f: Byte, s: seq<Byte>, j: nat)
    requires (forall b <- p :: 0x20 <= b <= 0x3F) && !(0x20 <= f <= 0x3F)
    requires 2 <= j <= 2 + |p| < |s| && s[2..2 + |p|] == p && s[2 + |p|] == f
    ensures SkipParameters(s, j) == 2 + |p|
    decreases 2 + |p| - j
  {
    if j < 2 + |p| {
      assert s[j] == s[2..2 + |p|][j - 2] && p[j - 2] in p;
      ParametersEnd(p, f, s, j + 1);
    }
  }

  lemma CsiMeaning(count: Counts, p: seq<Byte>, f: Byte, more: seq<Byte>)
    requires (forall b <- p :: 0x20 <= b <= 0x3F) && !(0x20 <= f <= 0x3F)
    ensures Handled(count, p, f, ReadUnit(count, [ESC, CSI] + p + [f] + more))
  {
    hide Handled, CsiUnit;
    var s := [ESC, CSI] + p + [f];
    assert (s + more)[2..2 + |p|] == p && (s + more)[2 + |p|] == f && (s + more)[..3 + |p|] == s;
    ParametersEnd(p, f, s + more, 2);
    CsiFinal(count, p, f);
  }

  lemma CsiFinal(count: Counts, p: seq<Byte>, f: Byte)
    requires (forall b <- p :: 0x20 <= b <= 0x3F) && !(0x20 <= f <= 0x3F)
    ensures Handled(count, p, f, CsiUnit(count, [ESC, CSI] + p + [f]))
  {
    hide CsiUnit, Handled;
    if f == 0x63 || f == 0x6E || f == KITTY { CsiQuery(count, p, f); } else { CsiOther(count, p, f); }
  }

  lemma CsiQuery(count: Counts, p: seq<Byte>, f: Byte)
    requires (forall b <- p :: 0x20 <= b <= 0x3F) && (f == 0x63 || f == 0x6E || f == KITTY)
    ensures Handled(count, p, f, CsiUnit(count, [ESC, CSI] + p + [f]))
  {
    hide CsiAnswer, Answers, Spells, Holds, FedAll, OneOf;
    Finals(f);
    QueryAnswer(p, f);
    assert f !in CSI_OK && f !in CSI_MANUAL;
  }

  lemma CsiOther(count: Counts, p: seq<Byte>, f: Byte)
    requires (forall b <- p :: 0x20 <= b <= 0x3F) && !(0x20 <= f <= 0x3F) && f != 0x63 && f != 0x6E && f != KITTY
    ensures Handled(count, p, f, CsiUnit(count, [ESC, CSI] + p + [f]))
  {
    var s := [ESC, CSI] + p + [f];
    assert s[2..|s| - 1] == p && s[|s| - 1] == f;
    Finals(f);
    Within(p, f, 0x3F, '?');
    Within(p, f, 0x3E, '>');
    Within(p, f, 0x3D, '=');
    Within(p, f, 0x24, '$');
    assert f as char != 'c' && f as char != 'n' && f as char != 'u';
    hide CsiAnswer, Answers, Spells, Holds, FedAll, OneOf;
  }

  lemma Within(p: seq<Byte>, f: Byte, b: Byte, c: char)
    requires b as char == c && 0x20 <= b <= 0x3F && !(0x20 <= f <= 0x3F)
    ensures b in [ESC, CSI] + p + [f] <==> Holds(p, c)
  {
  }

  lemma QueryAnswer(p: seq<Byte>, f: Byte)
    requires (forall b <- p :: 0x20 <= b <= 0x3F) && (f == 0x63 || f == 0x6E || f == KITTY)
    ensures var answers := CsiAnswer([ESC, CSI] + p + [f]);
      match f as char
      case 'c' => Answers(answers, if Holds(p, '>') then "\U{1B}[>0;10;1c" else "\U{1B}[?62;22c")
      case 'n' => if Holds(p, '6') then answers == [Position] else Answers(answers, "\U{1B}[0n")
      case 'u' => if Spells(p, "?") then Answers(answers, "\U{1B}[?0u") else answers == []
      case _ => false
  {
    var s := [ESC, CSI] + p + [f];
    Within(p, f, 0x3E, '>');
    Within(p, f, 0x36, '6');
    assert s == [ESC, CSI, QUESTION, KITTY] <==> f == KITTY && p == [QUESTION] by {
      if s == [ESC, CSI, QUESTION, KITTY] { assert s[2..|s| - 1] == p; }
    }
  }

  lemma Finals(f: Byte)
    ensures f in CSI_MANUAL <==> OneOf(f, "STZ")
    ensures f in CSI_OK <==> OneOf(f, "@ABCDEFGHJKLMPXadefghlmr`")
    ensures f in ESC_OK <==> OneOf(f, "78cDEHM")
    ensures f in CHARSETS <==> OneOf(f, "()%#")
    ensures f in STRINGS <==> OneOf(f, "PX^_")
  {
  }

  /** A terminator, BEL or ESC \, and a body with neither in it. */
  ghost predicate Terminates(body: seq<Byte>, term: seq<Byte>) {
    && (term == [0x07] || term == [0x1B, 0x5C])
    && (forall b <- body :: b != 0x07)
    && forall i :: 0 <= i < |body| && body[i] == 0x1B ==> i + 1 < |body + term| && (body + term)[i + 1] != 0x5C
  }

  lemma {:induction false} StringEnd(body: seq<Byte>, term: seq<Byte>, s: seq<Byte>, j: nat)
    requires Terminates(body, term) && 2 <= j <= 2 + |body| && 2 + |body + term| <= |s| && s[2..2 + |body + term|] == body + term
    ensures FindSt(s, j) == (2 + |body| + |term|, |term|)
    decreases 2 + |body| - j
  {
    var whole := s[2..2 + |body + term|];
    assert s[j] == whole[j - 2];
    if j < 2 + |body| {
      assert body[j - 2] in body;
      if s[j] == ESC { assert s[j + 1] == whole[j - 1]; }
      StringEnd(body, term, s, j + 1);
    } else if |term| == 2 {
      assert s[j + 1] == whole[j - 1];
    }
  }

  /** A query for the colour of the text or of the background. */
  ghost predicate AsksColor(body: seq<Byte>, kind: string) {
    3 <= |body| && Spells(body[..3], kind) && (|body| > 3 && body[|body| - 1] == 0x3F)
  }

  /** A control string: a query for a colour is answered and not fed; any other
      operating system command is fed; all others are dropped. */
  lemma StringMeaning(count: Counts, c: Byte, body: seq<Byte>, term: seq<Byte>, more: seq<Byte>)
    requires Terminates(body, term) && OneOf(c, "]PX^_")
    ensures var s := [ESC, c] + body + term;
      var r := ReadUnit(count, s + more);
      && r.Unit? && r.length == |s|
      && if c as char != ']' then r == Unit(|s|, [], [], {[ESC, c]})
         else if AsksColor(body, "10;") then
           r.pieces == [] && Answers(r.answers, "\U{1B}]10;rgb:e2e2/dfdf/d6d6\U{1B}\\") && r.dropped == {body}
         else if AsksColor(body, "11;") then
           r.pieces == [] && Answers(r.answers, "\U{1B}]11;rgb:1a1a/1b1b/1e1e\U{1B}\\") && r.dropped == {body}
         else r == Unit(|s|, FedAll(s), [], {})
  {
    hide FindSt, IsColorQuery, AsksColor, Terminates, Spells, FedAll;
    var s := [ESC, c] + body + term;
    StringParts(c, body, term, more);
    Finals(c);
    if c == OSC {
      ColorMeaning(body);
      ColorAnswers();
    }
  }

  lemma ColorAnswers()
    ensures Answers([Said(FOREGROUND)], "\U{1B}]10;rgb:e2e2/dfdf/d6d6\U{1B}\\")
    ensures Answers([Said(BACKGROUND)], "\U{1B}]11;rgb:1a1a/1b1b/1e1e\U{1B}\\")
  {
  }

  lemma StringParts(c: Byte, body: seq<Byte>, term: seq<Byte>, more: seq<Byte>)
    requires Terminates(body, term)
    ensures var s := [ESC, c] + body + term;
      && FindSt(s + more, 2) == (|s|, |term|) && (s + more)[..|s|] == s && (s + more)[2..|s| - |term|] == body
      && (s + more)[0] == ESC && (s + more)[1] == c
  {
    hide Terminates, FindSt;
    var s := [ESC, c] + body + term;
    assert (s + more)[2..2 + |body + term|] == body + term;
    StringEnd(body, term, s + more, 2);
  }

  lemma ColorMeaning(body: seq<Byte>)
    ensures IsColorQuery(body) <==> AsksColor(body, "10;") || AsksColor(body, "11;")
    ensures IsColorQuery(body) ==> (body[1] == 0x31 <==> AsksColor(body, "11;")) && !(AsksColor(body, "10;") && AsksColor(body, "11;"))
  {
    if 3 <= |body| {
      assert body[..3] == [body[0], body[1], body[2]];
    }
  }

  /** Any other escape: a character set with its name and what the emulator knows
      are fed, the rest is dropped. */
  lemma EscapeMeaning(count: Counts, c: Byte, more: seq<Byte>)
    requires !OneOf(c, "[]PX^_")
    ensures ReadUnit(count, [ESC, c] + more) ==
              if OneOf(c, "()%#") then (if more == [] then More else Unit(3, [Fed(ESC), Fed(c), Fed(more[0])], [], {}))
              else if OneOf(c, "78cDEHM") then Unit(2, [Fed(ESC), Fed(c)], [], {})
              else Unit(2, [], [], {[ESC, c]})
  {
    Finals(c);
    var s := [ESC, c] + more;
    assert FedAll(s[..2]) == [Fed(ESC), Fed(c)];
    if more != [] { assert FedAll(s[..3]) == [Fed(ESC), Fed(c), Fed(more[0])]; }
  }

  /** A byte that is not ESC is fed; an ESC alone, parameters without a final
      byte and a string without its end wait for more. */
  lemma PlainMeaning(count: Counts, b: Byte, more: seq<Byte>)
    requires b != 0x1B
    ensures ReadUnit(count, [b] + more) == Unit(1, [Fed(b)], [], {})
  {
  }

  lemma WaitMeaning(count: Counts, c: Byte, s: seq<Byte>)
    ensures ReadUnit(count, [ESC]).More?
    ensures OneOf(c, "[") && (forall b <- s :: 0x20 <= b <= 0x3F) ==> ReadUnit(count, [ESC, c] + s).More?
    ensures OneOf(c, "]PX^_") && ReadUnit(count, [ESC, c] + s).More? ==>
              forall body, term :: Terminates(body, term) ==> !(body + term <= s)
  {
    Finals(c);
    if OneOf(c, "[") && forall b <- s :: 0x20 <= b <= 0x3F {
      forall i | 2 <= i < |[ESC, c] + s| ensures 0x20 <= ([ESC, c] + s)[i] <= 0x3F { assert s[i - 2] in s; }
      AllParameters([ESC, c] + s, 2);
    }
    if OneOf(c, "]PX^_") {
      forall body, term | Terminates(body, term) && body + term <= s ensures ReadUnit(count, [ESC, c] + s).Unit? {
        assert s == body + term + s[|body + term|..];
        assert [ESC, c] + s == [ESC, c] + body + term + s[|body + term|..];
        StringMeaning(count, c, body, term, s[|body + term|..]);
      }
    }
  }

  lemma {:induction false} AllParameters(s: seq<Byte>, j: nat)
    requires 2 <= j <= |s| && forall i :: 2 <= i < |s| ==> 0x20 <= s[i] <= 0x3F
    ensures SkipParameters(s, j) == |s|
    decreases |s| - j
  {
    if j < |s| { AllParameters(s, j + 1); }
  }

  datatype Outcome = Outcome(pieces: seq<Piece>, answers: seq<Answer>, dropped: set<seq<Byte>>, tail: seq<Byte>)

  function Then(u: Read, o: Outcome): Outcome
    requires u.Unit?
  {
    Outcome(u.pieces + o.pieces, u.answers + o.answers, u.dropped + o.dropped, o.tail)
  }

  /** Everything in s. */
  function ReadAll(count: Counts, s: seq<Byte>): Outcome
    decreases |s|
  {
    if s == [] then Outcome([], [], {}, [])
    else
      var u := ReadUnit(count, s);
      if u.More? then Outcome([], [], {}, s) else Then(u, ReadAll(count, s[u.length..]))
  }

  lemma {:induction false} ParametersStay(s: seq<Byte>, more: seq<Byte>, j: nat)
    requires j <= |s|
    ensures SkipParameters(s, j) < |s| ==> SkipParameters(s + more, j) == SkipParameters(s, j)
    decreases |s| - j
  {
    if j < |s| && IsParameter(s[j]) { ParametersStay(s, more, j + 1); }
  }

  lemma {:induction false} FindStays(s: seq<Byte>, more: seq<Byte>, j: nat)
    requires j <= |s|
    ensures FindSt(s, j).0 > 0 ==> FindSt(s + more, j) == FindSt(s, j)
    decreases |s| - j
  {
    if j < |s| { FindStays(s, more, j + 1); }
  }

  lemma Front(s: seq<Byte>, more: seq<Byte>, a: nat, b: nat)
    requires a <= b <= |s|
    ensures (s + more)[a..b] == s[a..b] && (s + more)[..b] == s[..b]
  {
  }

  lemma CsiStays(count: Counts, s: seq<Byte>, more: seq<Byte>)
    requires |s| >= 2 && ReadCsi(count, s).Unit?
    ensures ReadCsi(count, s + more) == ReadCsi(count, s)
  {
    hide CsiUnit;
    ParametersStay(s, more, 2);
    Front(s, more, 0, SkipParameters(s, 2) + 1);
  }

  lemma OscStays(count: Counts, s: seq<Byte>, more: seq<Byte>)
    requires |s| >= 2 && ReadOsc(count, s).Unit?
    ensures ReadOsc(count, s + more) == ReadOsc(count, s)
  {
    hide IsColorQuery, FedAll;
    FindStays(s, more, 2);
    var (end, term) := FindSt(s, 2);
    Front(s, more, 2, end - term);
    Front(s, more, 0, end);
  }

  /** A unit that is all there reads the same whatever follows. */
  lemma UnitStays(count: Counts, s: seq<Byte>, more: seq<Byte>)
    requires s != [] && ReadUnit(count, s).Unit?
    ensures ReadUnit(count, s + more) == ReadUnit(count, s)
  {
    hide ReadCsi, ReadOsc, FedAll;
    assert (s + more)[0] == s[0];
    if s[0] == ESC {
      assert (s + more)[1] == s[1];
      if s[1] == CSI { CsiStays(count, s, more); }
      if s[1] == OSC { OscStays(count, s, more); }
      FindStays(s, more, 2);
      Front(s, more, 0, 2);
      if |s| > 2 { Front(s, more, 0, 3); }
    }
  }

  function After(o: Outcome, q: Outcome): Outcome {
    Outcome(o.pieces + q.pieces, o.answers + q.answers, o.dropped + q.dropped, q.tail)
  }

  /** Reading a and then, with its tail in front, b comes to the same as
      reading them in one. */
  lemma {:induction false} TwoReads(count: Counts, a: seq<Byte>, b: seq<Byte>)
    ensures ReadAll(count, a + b) == After(ReadAll(count, a), ReadAll(count, ReadAll(count, a).tail + b))
    decreases |a|
  {
    hide ReadUnit;
    if a == [] {
      assert a + b == b && [] + b == b;
    } else if ReadUnit(count, a).Unit? {
      var u := ReadUnit(count, a);
      UnitStays(count, a, b);
      assert (a + b)[u.length..] == a[u.length..] + b;
      TwoReads(count, a[u.length..], b);
      var o := ReadAll(count, a[u.length..]);
      ThenAfter(u, o, ReadAll(count, o.tail + b));
    }
  }

  lemma ThenAfter(u: Read, o: Outcome, q: Outcome)
    requires u.Unit?
    ensures Then(u, After(o, q)) == After(Then(u, o), q)
  {
  }

  /** What one read got, and where the cursor was before it. */
  datatype Arrival = Arrival(bytes: seq<Byte>, at: Cursor)

  /** The reads of a stream in chunks, each with the tail of the one before. */
  function ReadChunks(count: Counts, chunks: seq<Arrival>): Outcome {
    if chunks == [] then Outcome([], [], {}, [])
    else
      var o := ReadChunks(count, chunks[..|chunks| - 1]);
      After(o, ReadAll(count, o.tail + chunks[|chunks| - 1].bytes))
  }

  function Whole(chunks: seq<Arrival>): seq<Byte> {
    if chunks == [] then [] else Whole(chunks[..|chunks| - 1]) + chunks[|chunks| - 1].bytes
  }

  /** However a stream is cut up, the same is fed, done, asked and dropped, in
      the same order, and the same tail is left. */
  lemma {:induction false} AnyChunking(count: Counts, chunks: seq<Arrival>)
    ensures ReadChunks(count, chunks) == ReadAll(count, Whole(chunks))
    decreases |chunks|
  {
    if chunks != [] {
      var front, last := chunks[..|chunks| - 1], chunks[|chunks| - 1];
      AnyChunking(count, front);
      TwoReads(count, Whole(front), last.bytes);
    }
  }

  function Decimal(n: nat): (d: seq<Byte>)
    ensures d != [] && forall b <- d :: 0x30 <= b <= 0x39
  {
    if n < 10 then [(0x30 + n) as Byte] else Decimal(n / 10) + [(0x30 + n % 10) as Byte]
  }

  /** The bytes of an answer with the cursor there, rows and columns from 1. */
  function Tell(a: Answer, at: Cursor): seq<Byte> {
    match a
    case Said(bytes) => bytes
    case Position => [ESC, CSI] + (Decimal(at.row + 1) + ([0x3B] + (Decimal(at.column + 1) + [0x52])))
  }

  /** An answer and the cursor it was given at. */
  datatype Answered = Answered(answer: Answer, at: Cursor)

  function Text(gs: seq<Answered>): seq<Byte> {
    if gs == [] then [] else Tell(gs[0].answer, gs[0].at) + Text(gs[1..])
  }

  lemma {:induction false} TextMore(a: seq<Answered>, b: seq<Answered>)
    ensures Text(a + b) == Text(a) + Text(b)
    decreases |a|
  {
    hide Tell;
    if a == [] {
      assert a + b == b;
    } else {
      assert (a + b)[0] == a[0] && (a + b)[1..] == a[1..] + b;
      TextMore(a[1..], b);
      ThreeParts(Tell(a[0].answer, a[0].at), Text(a[1..]), Text(b));
    }
  }

  lemma ThreeParts<T>(a: seq<T>, b: seq<T>, c: seq<T>)
    ensures a + (b + c) == (a + b) + c
  {
  }

  function GivenAt(answers: seq<Answer>, at: Cursor): seq<Answered> {
    seq(|answers|, i requires 0 <= i < |answers| => Answered(answers[i], at))
  }

  /** What one read sends back. */
  function Reply(answers: seq<Answer>, at: Cursor): seq<Byte> {
    Text(GivenAt(answers, at))
  }

  lemma ReplyMore(a: seq<Answer>, b: seq<Answer>, at: Cursor)
    ensures Reply(a + b, at) == Reply(a, at) + Reply(b, at)
  {
    assert GivenAt(a + b, at) == GivenAt(a, at) + GivenAt(b, at);
    TextMore(GivenAt(a, at), GivenAt(b, at));
  }

  /** All that is sent back, each read's queries answered with the cursor as it
      was before that read. */
  function Replies(count: Counts, chunks: seq<Arrival>): seq<Byte> {
    if chunks == [] then []
    else
      var front, last := chunks[..|chunks| - 1], chunks[|chunks| - 1];
      Replies(count, front) + Reply(ReadAll(count, ReadChunks(count, front).tail + last.bytes).answers, last.at)
  }

  /** Every answer that is sent back. */
  function AllGiven(count: Counts, chunks: seq<Arrival>): seq<Answered> {
    if chunks == [] then []
    else
      var front, last := chunks[..|chunks| - 1], chunks[|chunks| - 1];
      AllGiven(count, front) + GivenAt(ReadAll(count, ReadChunks(count, front).tail + last.bytes).answers, last.at)
  }

  /** The cursors reports were given at, in order. */
  function Reported(gs: seq<Answered>): seq<Cursor> {
    if gs == [] then [] else (if gs[0].answer.Position? then [gs[0].at] else []) + Reported(gs[1..])
  }

  lemma {:induction false} ReportedMore(a: seq<Answered>, b: seq<Answered>)
    ensures Reported(a + b) == Reported(a) + Reported(b)
    decreases |a|
  {
    if a == [] {
      assert a + b == b;
    } else {
      assert (a + b)[0] == a[0] && (a + b)[1..] == a[1..] + b;
      ReportedMore(a[1..], b);
      ThreeParts(if a[0].answer.Position? then [a[0].at] else [], Reported(a[1..]), Reported(b));
    }
  }

  /** Two lists of the same answers, each with cursors of its own. */
  ghost predicate SameAnswers(g: seq<Answered>, h: seq<Answered>) {
    |g| == |h| && forall i :: 0 <= i < |g| ==> g[i].answer == h[i].answer
  }

  /** The answers of gs are those of all, in order. */
  ghost predicate AnswersOf(gs: seq<Answered>, all: seq<Answer>) {
    |gs| == |all| && forall i :: 0 <= i < |gs| ==> gs[i].answer == all[i]
  }

  lemma AnswersMore(gs: seq<Answered>, all: seq<Answer>, answers: seq<Answer>, at: Cursor)
    requires AnswersOf(gs, all)
    ensures AnswersOf(gs + GivenAt(answers, at), all + answers)
  {
  }

  lemma {:induction false} GivenIsRead(count: Counts, chunks: seq<Arrival>)
    ensures Replies(count, chunks) == Text(AllGiven(count, chunks))
    ensures AnswersOf(AllGiven(count, chunks), ReadChunks(count, chunks).answers)
    decreases |chunks|
  {
    if chunks != [] {
      hide ReadAll, Text, GivenAt, AnswersOf;
      var front, last := chunks[..|chunks| - 1], chunks[|chunks| - 1];
      GivenIsRead(count, front);
      var answers := ReadAll(count, ReadChunks(count, front).tail + last.bytes).answers;
      TextMore(AllGiven(count, front), GivenAt(answers, last.at));
      AnswersMore(AllGiven(count, front), ReadChunks(count, front).answers, answers, last.at);
    }
  }

  ghost predicate IsDigit(b: Byte) {
    0x30 <= b <= 0x39
  }

  /** Where a run of digits ends shows. */
  lemma DigitsEnd(a: seq<Byte>, x: seq<Byte>, b: seq<Byte>, y: seq<Byte>)
    requires (forall d <- a :: IsDigit(d)) && (forall d <- b :: IsDigit(d))
    requires x != [] && y != [] && !IsDigit(x[0]) && !IsDigit(y[0]) && a + x == b + y
    ensures a == b && x == y
  {
    assert (a + x)[|a|] == x[0] && (b + y)[|b|] == y[0];
    assert (a + x)[..|a|] == a && (b + y)[..|b|] == b && (a + x)[|a|..] == x && (b + y)[|b|..] == y;
    if |a| < |b| { assert false; }
    if |b| < |a| { assert false; }
  }

  lemma {:induction false} DecimalTells(m: nat, n: nat)
    requires Decimal(m) == Decimal(n)
    ensures m == n
    decreases m
  {
    var d, e := Decimal(m), Decimal(n);
    assert d[|d| - 1] == e[|e| - 1] && d[..|d| - 1] == e[..|e| - 1];
    if m >= 10 && n >= 10 {
      assert d[..|d| - 1] == Decimal(m / 10) && e[..|e| - 1] == Decimal(n / 10);
      DecimalTells(m / 10, n / 10);
    }
  }

  /** A report tells where it was given, whatever comes after it. */
  lemma ReportTells(c: Cursor, x: seq<Byte>, d: Cursor, y: seq<Byte>)
    requires Tell(Position, c) + x == Tell(Position, d) + y
    ensures c == d && x == y
  {
    hide Decimal;
    var r1, r2 := Decimal(c.row + 1), Decimal(d.row + 1);
    var k1, k2 := Decimal(c.column + 1), Decimal(d.column + 1);
    var p, q := [0x3B as Byte] + (k1 + ([0x52] + x)), [0x3B as Byte] + (k2 + ([0x52] + y));
    assert (Tell(Position, c) + x)[2..] == r1 + p;
    assert (Tell(Position, d) + y)[2..] == r2 + q;
    DigitsEnd(r1, p, r2, q);
    assert p[1..] == k1 + ([0x52] + x) && q[1..] == k2 + ([0x52] + y);
    DigitsEnd(k1, [0x52] + x, k2, [0x52] + y);
    assert ([0x52] + x)[1..] == x && ([0x52] + y)[1..] == y;
    DecimalTells(c.row + 1, d.row + 1);
    DecimalTells(c.column + 1, d.column + 1);
  }

  lemma FirstAndRest(c: Cursor, cs: seq<Cursor>, d: Cursor, ds: seq<Cursor>)
    ensures [c] + cs == [d] + ds <==> c == d && cs == ds
  {
    assert ([c] + cs)[0] == c && ([d] + ds)[0] == d && ([c] + cs)[1..] == cs && ([d] + ds)[1..] == ds;
  }

  lemma {:induction false} TextTells(g: seq<Answered>, h: seq<Answered>)
    requires SameAnswers(g, h)
    ensures Text(g) == Text(h) <==> Reported(g) == Reported(h)
    decreases |g|
  {
    if g != [] {
      TextTells(g[1..], h[1..]);
      var x, y := Text(g[1..]), Text(h[1..]);
      var v, w := Tell(g[0].answer, g[0].at), Tell(h[0].answer, h[0].at);
      if g[0].answer.Position? {
        if v + x == w + y { ReportTells(g[0].at, x, h[0].at, y); }
        assert Reported(g) == [g[0].at] + Reported(g[1..]) && Reported(h) == [h[0].at] + Reported(h[1..]);
        FirstAndRest(g[0].at, Reported(g[1..]), h[0].at, Reported(h[1..]));
      } else {
        assert v == w;
        if v + x == w + y { assert x == (v + x)[|v|..] == (w + y)[|w|..] == y; }
        assert Reported(g) == Reported(g[1..]) && Reported(h) == Reported(h[1..]);
      }
    }
  }

  /** Two ways to cut up one stream: the same is sent back if and only if the
      reports are given at the same cursors. */
  lemma SameReplies(count: Counts, a: seq<Arrival>, b: seq<Arrival>)
    requires Whole(a) == Whole(b)
    ensures Replies(count, a) == Replies(count, b) <==> Reported(AllGiven(count, a)) == Reported(AllGiven(count, b))
  {
    AnyChunking(count, a);
    AnyChunking(count, b);
    GivenIsRead(count, a);
    GivenIsRead(count, b);
    TextTells(AllGiven(count, a), AllGiven(count, b));
  }

  /** What the queries that read k completes are answered. */
  function AnswersIn(count: Counts, chunks: seq<Arrival>, k: nat): seq<Answer>
    requires k < |chunks|
  {
    ReadAll(count, ReadChunks(count, chunks[..k]).tail + chunks[k].bytes).answers
  }

  ghost predicate AllAt(cs: seq<Cursor>, c: Cursor) {
    forall d <- cs :: d == c
  }

  lemma BothAt(a: seq<Cursor>, b: seq<Cursor>, c: Cursor)
    ensures AllAt(a + b, c) <==> AllAt(a, c) && AllAt(b, c)
  {
    assert forall d :: d in a + b <==> d in a || d in b;
  }

  lemma {:induction false} ReportedIn(answers: seq<Answer>, at: Cursor, c: Cursor)
    ensures AllAt(Reported(GivenAt(answers, at)), c) <==> (Position in answers ==> at == c)
    decreases |answers|
  {
    if answers != [] {
      var given, rest := GivenAt(answers, at), Reported(GivenAt(answers[1..], at));
      var first := if answers[0].Position? then [at] else [];
      assert given[1..] == GivenAt(answers[1..], at) && given[0] == Answered(answers[0], at);
      assert Reported(given) == first + rest;
      BothAt(first, rest, c);
      ReportedIn(answers[1..], at, c);
      assert answers == [answers[0]] + answers[1..];
      if answers[0].Position? { assert at in first; }
    }
  }

  /** Of the first n reads, those that complete the query for it are at c. */
  ghost predicate AskedAt(count: Counts, chunks: seq<Arrival>, n: nat, c: Cursor)
    requires n <= |chunks|
  {
    forall k :: 0 <= k < n && Position in AnswersIn(count, chunks, k) ==> chunks[k].at == c
  }

  lemma NextGiven(count: Counts, chunks: seq<Arrival>, n: nat)
    requires n < |chunks|
    ensures AllGiven(count, chunks[..n + 1]) ==
            AllGiven(count, chunks[..n]) + GivenAt(AnswersIn(count, chunks, n), chunks[n].at)
  {
    hide ReadAll, ReadChunks, GivenAt;
    assert chunks[..n + 1][..n] == chunks[..n] && chunks[..n + 1][n] == chunks[n];
  }

  lemma NextAsked(count: Counts, chunks: seq<Arrival>, n: nat, c: Cursor)
    requires n < |chunks|
    ensures AskedAt(count, chunks, n + 1, c) <==>
            AskedAt(count, chunks, n, c) && (Position in AnswersIn(count, chunks, n) ==> chunks[n].at == c)
  {
    hide AnswersIn;
  }

  lemma NoneReported(count: Counts, chunks: seq<Arrival>, c: Cursor)
    ensures AllAt(Reported(AllGiven(count, chunks[..0])), c) && AskedAt(count, chunks, 0, c)
  {
    hide ReadAll, ReadChunks, GivenAt, AnswersIn;
  }

  lemma {:induction false} ReportedAt(count: Counts, chunks: seq<Arrival>, n: nat, c: Cursor)
    requires n <= |chunks|
    ensures AllAt(Reported(AllGiven(count, chunks[..n])), c) <==> AskedAt(count, chunks, n, c)
    decreases n
  {
    hide *;
    if n == 0 {
      NoneReported(count, chunks, c);
    } else {
      var answers, last := AnswersIn(count, chunks, n - 1), chunks[n - 1];
      ReportedAt(count, chunks, n - 1, c);
      NextGiven(count, chunks, n - 1);
      NextAsked(count, chunks, n - 1, c);
      ReportedMore(AllGiven(count, chunks[..n - 1]), GivenAt(answers, last.at));
      ReportedIn(answers, last.at, c);
      BothAt(Reported(AllGiven(count, chunks[..n - 1])), Reported(GivenAt(answers, last.at)), c);
    }
  }

  lemma {:induction false} ReportedCount(g: seq<Answered>, h: seq<Answered>)
    requires SameAnswers(g, h)
    ensures |Reported(g)| == |Reported(h)|
    decreases |g|
  {
    if g != [] { ReportedCount(g[1..], h[1..]); }
  }

  lemma AllThere(a: seq<Cursor>, b: seq<Cursor>, c: Cursor)
    requires |a| == |b| && AllAt(b, c)
    ensures a == b <==> AllAt(a, c)
  {
    if AllAt(a, c) {
      forall i | 0 <= i < |a| ensures a[i] == b[i] {
        assert a[i] in a && b[i] in b;
      }
    }
  }

  /** Cut up, a stream is answered as if it came in one read with the cursor at c
      if and only if no read with the cursor elsewhere completes the query that
      asks for it. */
  lemma AsOneRead(count: Counts, chunks: seq<Arrival>, c: Cursor)
    ensures Replies(count, chunks) == Replies(count, [Arrival(Whole(chunks), c)]) <==>
            AskedAt(count, chunks, |chunks|, c)
  {
    hide AllGiven, AnswersIn, AllAt, Reported, Replies, ReadAll, ReadChunks, Text;
    var one := [Arrival(Whole(chunks), c)];
    WholeOfOne(one);
    SameReplies(count, chunks, one);
    AnyChunking(count, chunks);
    AnyChunking(count, one);
    GivenIsRead(count, chunks);
    GivenIsRead(count, one);
    ReportedCount(AllGiven(count, chunks), AllGiven(count, one));
    assert chunks[..|chunks|] == chunks && one[..1] == one;
    ReportedAt(count, chunks, |chunks|, c);
    ReportedAt(count, one, 1, c);
    AllThere(Reported(AllGiven(count, chunks)), Reported(AllGiven(count, one)), c);
  }

  lemma WholeOfOne(one: seq<Arrival>)
    requires |one| == 1
    ensures Whole(one) == one[0].bytes
  {
    assert one[..0] == [];
  }

  /** It is not so if the cursor has moved on: an A and then the query. */
  lemma LateReport(count: Counts, c: Cursor, d: Cursor)
    requires c != d
    ensures var a, asks := [0x41], [ESC, CSI, 0x36, 0x6E];
      Replies(count, [Arrival(a, c), Arrival(asks, d)]) != Replies(count, [Arrival(a + asks, c)])
  {
    var a: seq<Byte>, asks: seq<Byte> := [0x41], [ESC, CSI, 0x36, 0x6E];
    var chunks := [Arrival(a, c), Arrival(asks, d)];
    assert chunks[..1] == [chunks[0]] && chunks[..1][..0] == [];
    WholeOfOne(chunks[..1]);
    assert Whole(chunks) == a + asks;
    AnyChunking(count, chunks[..1]);
    assert ReadAll(count, a[1..]).tail == [] && ReadAll(count, a).tail == [];
    assert [] + asks == asks && asks[..4] == asks;
    assert SkipParameters(asks, 2) == 3;
    assert ReadUnit(count, asks).answers == [Position];
    assert Position in AnswersIn(count, chunks, 1) && !AskedAt(count, chunks, 2, c);
    AsOneRead(count, chunks, c);
  }

  lemma FedMore(a: seq<Byte>, b: seq<Byte>)
    ensures FedAll(a + b) == FedAll(a) + FedAll(b)
  {
  }

  lemma FlatMore(actions: seq<Action>, a: Action)
    ensures Flat(actions + [a]) == Flat(actions) + match a case Feed(bs) => FedAll(bs) case Op(final, n) => [Done(final, n)]
  {
    assert (actions + [a])[..|actions + [a]| - 1] == actions;
  }

  /** No feed is empty, and no two are next to each other. */
  ghost predicate Tight(actions: seq<Action>) {
    && (forall i :: 0 <= i < |actions| && actions[i].Feed? ==> actions[i].bytes != [])
    && forall i :: 0 <= i < |actions| - 1 ==> actions[i].Op? || actions[i + 1].Op?
  }

  class Sanitizer {
    const count: Counts
    var stripped: set<seq<Byte>>

    constructor (counts: Counts)
      ensures count == counts && stripped == {}
    {
      count, stripped := counts, {};
    }

    /** Between two units: what has been read, and what is still ahead. */
    ghost predicate Partway(actions: seq<Action>, out: seq<Byte>, replies: seq<Byte>, at: Cursor, was: set<seq<Byte>>,
                            ahead: Outcome, all: Outcome)
      reads this
    {
      && Tight(actions) && (actions != [] ==> actions[|actions| - 1].Op?)
      && Flat(actions) + FedAll(out) + ahead.pieces == all.pieces
      && replies + Reply(ahead.answers, at) == Reply(all.answers, at) && ahead.tail == all.tail
      && stripped + ahead.dropped == was + all.dropped
    }

    lemma NextUnit(before: seq<Piece>, replies: seq<Byte>, u: Read, ahead: Outcome, at: Cursor)
      requires u.Unit?
      ensures var o := Then(u, ahead);
        && (before + u.pieces) + ahead.pieces == before + o.pieces
        && (replies + Reply(u.answers, at)) + Reply(ahead.answers, at) == replies + Reply(o.answers, at)
        && o.dropped == u.dropped + ahead.dropped && o.tail == ahead.tail
    {
      hide Reply;
      ReplyMore(u.answers, ahead.answers, at);
      ThreeParts(before, u.pieces, ahead.pieces);
      ThreeParts(replies, Reply(u.answers, at), Reply(ahead.answers, at));
    }

    /** One read's worth of output, with the cursor where it was before it. */
    method FeedBytes(buf: seq<Byte>, at: Cursor) returns (actions: seq<Action>, replies: seq<Byte>, tail: seq<Byte>)
      modifies this
      ensures Flat(actions) == ReadAll(count, buf).pieces && Tight(actions)
      ensures replies == Reply(ReadAll(count, buf).answers, at) && tail == ReadAll(count, buf).tail
      ensures stripped == old(stripped) + ReadAll(count, buf).dropped
    {
      hide ReadUnit, Tight, FedAll, Reply, Flat, Then;
      var out: seq<Byte> := [];
      actions, replies, tail := [], [], [];
      var i := 0;
      ghost var o := ReadAll(count, buf);
      StartsTight(at);
      assert buf[0..] == buf;
      while i < |buf|
        invariant i <= |buf| && Partway(actions, out, replies, at, old(stripped), ReadAll(count, buf[i..]), o)
      {
        var u := ReadUnit(count, buf[i..]);
        if u.More? {
          tail := buf[i..];
          break;
        }
        assert buf[i..][u.length..] == buf[i + u.length..];
        NextUnit(Flat(actions) + FedAll(out), replies, u, ReadAll(count, buf[i + u.length..]), at);
        actions, out := Take(actions, out, u.pieces);
        replies, stripped, i := replies + Reply(u.answers, at), stripped + u.dropped, i + u.length;
      }
      actions := Flush(actions, out);
    }

    lemma StartsTight(at: Cursor)
      ensures Reply([], at) == [] && Tight([]) && FedAll([]) == [] && Flat([]) == []
    {
    }

    /** Feeds what is waiting, if anything is. */
    static method Flush(actions0: seq<Action>, out: seq<Byte>) returns (actions: seq<Action>)
      requires Tight(actions0) && (actions0 != [] ==> actions0[|actions0| - 1].Op?)
      ensures Tight(actions) && Flat(actions) == Flat(actions0) + FedAll(out)
    {
      actions := actions0;
      FlatMore(actions, Feed(out));
      if out != [] { actions := actions + [Feed(out)]; }
    }

    /** Bytes wait to be fed together; an operation has them fed first. */
    static method Take(actions0: seq<Action>, out0: seq<Byte>, pieces: seq<Piece>) returns (actions: seq<Action>, out: seq<Byte>)
      requires Tight(actions0) && (actions0 != [] ==> actions0[|actions0| - 1].Op?)
      ensures Tight(actions) && (actions != [] ==> actions[|actions| - 1].Op?)
      ensures Flat(actions) + FedAll(out) == Flat(actions0) + FedAll(out0) + pieces
    {
      actions, out := actions0, out0;
      for k := 0 to |pieces|
        invariant Tight(actions) && (actions != [] ==> actions[|actions| - 1].Op?)
        invariant Flat(actions) + FedAll(out) == Flat(actions0) + FedAll(out0) + pieces[..k]
      {
        assert pieces[..k + 1] == pieces[..k] + [pieces[k]];
        ghost var was := Flat(actions) + FedAll(out);
        match pieces[k] {
          case Fed(b) =>
            FedMore(out, [b]);
            out := out + [b];
          case Done(final, n) =>
            actions := Flush(actions, out);
            FlatMore(actions, Op(final, n));
            actions, out := actions + [Op(final, n)], [];
        }
        assert Flat(actions) + FedAll(out) == was + [pieces[k]];
      }
      assert pieces[..|pieces|] == pieces;
    }
  }
}
