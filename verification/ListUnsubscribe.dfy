/** Taking a List-Unsubscribe header apart (internal/headers/headers.go;
    section 3.2 of RFC 2369): links in angle brackets, and bare ones between. */
module ListUnsubscribe {
  import Clean

  predicate IsBlank(c: char) {
    c == ' ' || c == '\t'
  }

  /** What separates bare links: commas and white space. */
  predicate IsSeparator(c: char) {
    c == ',' || c == ' ' || c == '\t' || c == '\n' || c == '\r' || c as int == 0x0C
  }

  predicate IsWhite(c: char) {
    c == ' ' || c == '\t' || c == '\n' || c == '\r'
  }

  /** White space at the ends of a token that does not separate tokens. */
  predicate IsSpace(c: char) {
    Clean.IsSpace(c as int)
  }

  function DropBlanks(s: string): string {
    if s != "" && IsBlank(s[0]) then DropBlanks(s[1..]) else s
  }

  lemma DropBlanksShorter(s: string)
    ensures |DropBlanks(s)| <= |s|
  {
  }

  /** A folded line becomes one space, and so does any other line break. */
  function Unfold(s: string): string
    decreases |s|
  {
    DropBlanksShorter(s[if |s| > 2 then 2 else |s|..]);
    DropBlanksShorter(s[if |s| > 1 then 1 else |s|..]);
    if s == "" then ""
    else if |s| > 1 && s[0] == '\r' && s[1] == '\n' then " " + Unfold(DropBlanks(s[2..]))
    else if s[0] == '\n' then " " + Unfold(DropBlanks(s[1..]))
    else if s[0] == '\r' then " " + Unfold(s[1..])
    else [s[0]] + Unfold(s[1..])
  }

  function Trim(s: string): string
    decreases |s|
  {
    if s == "" then ""
    else if IsSpace(s[0]) then Trim(s[1..])
    else if IsSpace(s[|s| - 1]) then Trim(s[..|s| - 1])
    else s
  }

  /** White space goes from both ends, and only that. */
  lemma {:induction false} TrimMeaning(a: string, t: string, b: string)
    requires (forall c <- a :: IsSpace(c)) && (forall c <- b :: IsSpace(c))
    requires t != "" ==> !IsSpace(t[0]) && !IsSpace(t[|t| - 1])
    ensures Trim(a + t + b) == t
    decreases |a| + |b|
  {
    var s := a + t + b;
    if a != "" {
      assert s[1..] == a[1..] + t + b;
      TrimMeaning(a[1..], t, b);
    } else if t == "" && b != "" {
      assert s == b && b[1..] == "" + t + b[1..];
      TrimMeaning("", t, b[1..]);
    } else if b != "" {
      assert s[0] == t[0] && s[..|s| - 1] == "" + t + b[..|b| - 1];
      TrimMeaning("", t, b[..|b| - 1]);
    } else {
      assert s == t;
    }
  }

  function AsToken(t: string): seq<string> {
    if Trim(t) == "" then [] else [Trim(t)]
  }

  /** The tokens of s, t being what is read of the current one. */
  function Split(s: string, t: string): seq<string>
    decreases |s|
  {
    if s == "" then AsToken(t)
    else if IsSeparator(s[0]) then AsToken(t) + Split(s[1..], "")
    else Split(s[1..], t + [s[0]])
  }

  function SplitBare(s: string): seq<string> {
    Split(s, "")
  }

  function StripWhite(s: string): string {
    if s == "" then ""
    else if IsWhite(s[0]) then StripWhite(s[1..])
    else [s[0]] + StripWhite(s[1..])
  }

  /** The first position of c in s, or -1. */
  function Find(s: string, c: char): (i: int)
    ensures -1 <= i < |s|
    ensures 0 <= i ==> s[i] == c && c !in s[..i]
    ensures i < 0 ==> c !in s
  {
    if s == "" then -1
    else if s[0] == c then 0
    else
      var i := Find(s[1..], c);
      if i < 0 then -1 else
        assert s[..i + 1] == [s[0]] + s[1..][..i];
        i + 1
  }

  function Bracketed(content: string): seq<string> {
    if StripWhite(content) == "" then [] else [StripWhite(content)]
  }

  /** Everything in s that may be a link, in order. */
  function Candidates(s: string): seq<string>
    decreases |s|
  {
    if s == "" then []
    else if s[0] == '<' then
      var j := Find(s[1..], '>');
      if j < 0 then SplitBare(s[1..]) else Bracketed(s[1..][..j]) + Candidates(s[j + 2..])
    else
      var k := Find(s, '<');
      if k < 0 then SplitBare(s) else SplitBare(s[..k]) + Candidates(s[k..])
  }

  predicate HasControl(s: string) {
    exists i :: 0 <= i < |s| && (s[i] as int < 0x20 || s[i] as int == 0x7F || 0x80 <= s[i] as int <= 0x9F)
  }

  /** A link is kept if it has no control character and valid says it is one. */
  predicate Usable(valid: string -> bool, c: string) {
    !HasControl(c) && valid(c)
  }

  function Links(valid: string -> bool, cs: seq<string>): seq<string> {
    if cs == [] then []
    else Links(valid, cs[..|cs| - 1]) + if Usable(valid, cs[|cs| - 1]) then [cs[|cs| - 1]] else []
  }

  /** Each once, where it first appears. */
  function Dedupe(cs: seq<string>): seq<string> {
    if cs == [] then []
    else
      var before := Dedupe(cs[..|cs| - 1]);
      if cs[|cs| - 1] in before then before else before + [cs[|cs| - 1]]
  }

  function Parse(valid: string -> bool, raw: string): seq<string> {
    Dedupe(Links(valid, Candidates(Unfold(raw))))
  }

  /** The first part of what is left: text in brackets, or up to a bracket. */
  lemma FirstPart(s: string)
    requires s != ""
    ensures Candidates(s) ==
            if s[0] == '<' then
              var j := Find(s[1..], '>');
              if j < 0 then SplitBare(s[1..]) else Bracketed(s[1..][..j]) + Candidates(s[j + 2..])
            else
              var k := Find(s, '<');
              if k < 0 then SplitBare(s) else SplitBare(s[..k]) + Candidates(s[k..])
  {
  }

  /** Reads the candidates off one after the other. */
  method ReadCandidates(raw: string) returns (out: seq<string>)
    ensures out == Candidates(raw)
  {
    hide SplitBare, Bracketed, Candidates, Find;
    out := [];
    var i := 0;
    assert raw[0..] == raw && Candidates("") == [] by { NoCandidates(); }
    while i < |raw|
      invariant 0 <= i <= |raw| && out + Candidates(raw[i..]) == Candidates(raw)
    {
      FirstPart(raw[i..]);
      if raw[i] == '<' {
        var rest := raw[i + 1..];
        assert raw[i..][1..] == rest;
        var j := Find(rest, '>');
        if j < 0 {
          out := out + SplitBare(rest);
          return;
        }
        assert raw[i..][j + 2..] == raw[i + j + 2..];
        Reassociate(out, Bracketed(rest[..j]), Candidates(raw[i + j + 2..]));
        out := out + Bracketed(rest[..j]);
        i := i + 1 + j + 1;
      } else {
        var k := Find(raw[i..], '<');
        if k < 0 {
          out := out + SplitBare(raw[i..]);
          return;
        }
        assert raw[i..][k..] == raw[i + k..];
        Reassociate(out, SplitBare(raw[i..][..k]), Candidates(raw[i + k..]));
        out := out + SplitBare(raw[i..][..k]);
        i := i + k;
      }
    }
    assert raw[i..] == "";
  }

  lemma NoCandidates()
    ensures Candidates("") == []
  {
  }

  lemma NoLinks(valid: string -> bool)
    ensures Links(valid, []) == [] && Dedupe([]) == []
  {
  }

  lemma LinksStep(valid: string -> bool, cs: seq<string>, i: nat)
    requires i < |cs|
    ensures Links(valid, cs[..i + 1]) == if Usable(valid, cs[i]) then Links(valid, cs[..i]) + [cs[i]] else Links(valid, cs[..i])
  {
    hide Usable;
    assert cs[..i + 1][..i] == cs[..i];
    assert Links(valid, cs[..i]) + [] == Links(valid, cs[..i]);
  }

  /** Takes the header apart: the usable links in it, each once. */
  method ParseListUnsubscribe(valid: string -> bool, raw: string) returns (out: seq<string>)
    ensures out == Parse(valid, raw)
  {
    hide Usable, Links, Dedupe;
    var cs := ReadCandidates(Unfold(raw));
    NoLinks(valid);
    var seen: set<string> := {};
    out := [];
    for i := 0 to |cs|
      invariant out == Dedupe(Links(valid, cs[..i])) && forall c :: c in seen <==> c in out
    {
      LinksStep(valid, cs, i);
      DedupeSnoc(Links(valid, cs[..i]), cs[i]);
      DedupeHas(Links(valid, cs[..i]));
      if Usable(valid, cs[i]) {
        if cs[i] !in seen {
          seen, out := seen + {cs[i]}, out + [cs[i]];
        }
      }
    }
    assert cs[..|cs|] == cs;
  }

  lemma {:induction false} SplitAt(s: string, sep: char, r: string, t: string)
    requires IsSeparator(sep)
    ensures Split(s + [sep] + r, t) == Split(s, t) + SplitBare(r)
    decreases |s|
  {
    if s == "" {
      assert ([] + [sep] + r)[1..] == r;
    } else {
      assert (s + [sep] + r)[1..] == s[1..] + [sep] + r;
      if IsSeparator(s[0]) { SplitAt(s[1..], sep, r, ""); } else { SplitAt(s[1..], sep, r, t + [s[0]]); }
    }
  }

  /** Commas and white space, and then a bare link. */
  datatype Token = Token(gap: string, link: string)

  predicate Separates(c: char) {
    c == ',' || c == ' ' || c == '\t' || c == '\n' || c == '\r' || c as int == 0x0C
  }

  ghost predicate TokensOk(ts: seq<Token>) {
    && (forall x <- ts ::
          && (forall c <- x.gap :: Separates(c)) && x.link != "" && (forall c <- x.link :: !Separates(c))
          && !IsSpace(x.link[0]) && !IsSpace(x.link[|x.link| - 1]))
    && forall i :: 0 < i < |ts| ==> ts[i].gap != ""
  }

  function Spread(ts: seq<Token>): string {
    if ts == [] then "" else ts[0].gap + ts[0].link + Spread(ts[1..])
  }

  function LinksIn(ts: seq<Token>): seq<string> {
    if ts == [] then [] else [ts[0].link] + LinksIn(ts[1..])
  }

  lemma {:induction false} GapThen(gap: string, s: string, t: string)
    requires forall c <- gap :: Separates(c)
    ensures Split(gap + s, t) == if gap == "" then Split(s, t) else AsToken(t) + Split(s, "")
    decreases |gap|
  {
    if gap == "" {
      assert gap + s == s;
    } else {
      assert gap[0] in gap && (gap + s)[0] == gap[0] && (gap + s)[1..] == gap[1..] + s;
      assert forall c <- gap[1..] :: c in gap;
      GapThen(gap[1..], s, "");
      assert AsToken("") == [];
    }
  }

  lemma {:induction false} LinkThen(link: string, s: string, t: string)
    requires forall c <- link :: !Separates(c)
    ensures Split(link + s, t) == Split(s, t + link)
    decreases |link|
  {
    if link == "" {
      assert link + s == s && t + link == t;
    } else {
      assert link[0] in link && (link + s)[0] == link[0] && (link + s)[1..] == link[1..] + s;
      assert forall c <- link[1..] :: c in link;
      LinkThen(link[1..], s, t + [link[0]]);
      assert t + [link[0]] + link[1..] == t + link;
    }
  }

  /** Of bare links with commas or white space between them, and maybe around
      them, the links are what is read, each as it is and in order. */
  lemma TokensMeaning(ts: seq<Token>, last: string)
    requires TokensOk(ts) && forall c <- last :: Separates(c)
    ensures SplitBare(Spread(ts) + last) == LinksIn(ts)
  {
    TokensFrom(ts, last, "");
    assert AsToken("") == [] && [] + LinksIn(ts) == LinksIn(ts);
  }

  lemma {:induction false} TokensFrom(ts: seq<Token>, last: string, t: string)
    requires TokensOk(ts) && (forall c <- last :: Separates(c)) && (t != "" && ts != [] ==> ts[0].gap != "")
    ensures Split(Spread(ts) + last, t) == AsToken(t) + LinksIn(ts)
    decreases |ts|
  {
    NoMore(t);
    NoMore("");
    if ts == [] {
      GapThen(last, "", t);
      hide *;
      NoTokensLeft(ts, last);
    } else {
      var x, rest := ts[0], Spread(ts[1..]) + last;
      OneToken(ts);
      hide *;
      FirstToken(ts, last);
      GapThen(x.gap, x.link + rest, t);
      LinkThen(x.link, rest, "");
      TokensFrom(ts[1..], last, x.link);
      LinkIsToken(x.link);
      assert "" + x.link == x.link;
    }
  }

  lemma OneToken(ts: seq<Token>)
    requires TokensOk(ts) && ts != []
    ensures var x := ts[0];
      && (forall c <- x.gap :: Separates(c)) && x.link != "" && (forall c <- x.link :: !Separates(c))
      && !IsSpace(x.link[0]) && !IsSpace(x.link[|x.link| - 1])
      && TokensOk(ts[1..]) && (|ts| > 1 ==> ts[1].gap != "")
  {
    assert ts[0] in ts && forall y <- ts[1..] :: y in ts;
  }

  lemma NoTokensLeft(ts: seq<Token>, last: string)
    requires ts == []
    ensures Spread(ts) + last == last + "" == last && LinksIn(ts) == []
  {
  }

  lemma FirstToken(ts: seq<Token>, last: string)
    requires ts != []
    ensures Spread(ts) + last == ts[0].gap + (ts[0].link + (Spread(ts[1..]) + last))
    ensures LinksIn(ts) == [ts[0].link] + LinksIn(ts[1..])
  {
  }

  lemma NoMore(t: string)
    ensures Split("", t) == AsToken(t) && AsToken("") == []
  {
  }

  lemma LinkIsToken(link: string)
    requires link != "" && !IsSpace(link[0]) && !IsSpace(link[|link| - 1])
    ensures AsToken(link) == [link]
  {
  }

  /** White space goes from between brackets, and nothing else does. */
  lemma StripMeaning(a: string, b: string, c: char)
    ensures StripWhite("") == ""
    ensures StripWhite([c]) == if c == ' ' || c == '\t' || c == '\r' || c == '\n' then "" else [c]
    ensures StripWhite(a + b) == StripWhite(a) + StripWhite(b)
  {
    StripAppend(a, b);
  }

  lemma {:induction false} StripAppend(a: string, b: string)
    ensures StripWhite(a + b) == StripWhite(a) + StripWhite(b)
    decreases |a|
  {
    if a == "" {
      assert a + b == b;
    } else {
      assert (a + b)[1..] == a[1..] + b;
      StripAppend(a[1..], b);
    }
  }

  /** Text without line breaks is left as it is; a line break with the blanks
      after it, or a lone carriage return, becomes one space. */
  lemma UnfoldMeaning(a: string, blanks: string, b: string)
    requires (forall c <- a :: c != '\r' && c != '\n') && (forall c <- blanks :: c == ' ' || c == '\t')
    requires b == "" || (b[0] != ' ' && b[0] != '\t')
    ensures Unfold(a) == a
    ensures Unfold(a + ("\r\n" + blanks + b)) == a + (" " + Unfold(b))
    ensures Unfold(a + ("\n" + blanks + b)) == a + (" " + Unfold(b))
    ensures b == "" || b[0] != '\n' ==> Unfold(a + ("\r" + b)) == a + (" " + Unfold(b))
  {
    hide Unfold, DropBlanks;
    PlainFirst(a, "");
    assert a + "" == a;
    NothingFolded();
    PlainFirst(a, "\r\n" + blanks + b);
    PlainFirst(a, "\n" + blanks + b);
    PlainFirst(a, "\r" + b);
    BlanksGo(blanks, b);
    FoldFirst(blanks + b);
    ReturnFirst(b);
    assert "\r\n" + blanks + b == "\r\n" + (blanks + b) && "\n" + blanks + b == "\n" + (blanks + b);
  }

  lemma NothingFolded()
    ensures Unfold("") == ""
  {
  }

  lemma ReturnFirst(b: string)
    ensures b == "" || b[0] != '\n' ==> Unfold("\r" + b) == " " + Unfold(b)
  {
    assert ("\r" + b)[1..] == b;
  }

  lemma {:induction false} PlainFirst(a: string, t: string)
    requires forall c <- a :: c != '\r' && c != '\n'
    ensures Unfold(a + t) == a + Unfold(t)
    decreases |a|
  {
    if a == "" {
      assert a + t == t;
    } else {
      assert a[0] in a && (a + t)[0] == a[0] && (a + t)[1..] == a[1..] + t;
      assert forall c <- a[1..] :: c in a;
      PlainFirst(a[1..], t);
    }
  }

  lemma {:induction false} BlanksGo(blanks: string, b: string)
    requires (forall c <- blanks :: c == ' ' || c == '\t') && (b == "" || (b[0] != ' ' && b[0] != '\t'))
    ensures DropBlanks(blanks + b) == b
    decreases |blanks|
  {
    if blanks == "" {
      assert blanks + b == b;
    } else {
      assert blanks[0] in blanks && (blanks + b)[1..] == blanks[1..] + b;
      assert forall c <- blanks[1..] :: c in blanks;
      BlanksGo(blanks[1..], b);
    }
  }

  lemma FoldFirst(s: string)
    ensures Unfold("\r\n" + s) == " " + Unfold(DropBlanks(s)) && Unfold("\n" + s) == " " + Unfold(DropBlanks(s))
  {
    assert ("\r\n" + s)[2..] == s && ("\n" + s)[1..] == s;
  }

  /** A candidate that is a link: no control character in it, and valid says so. */
  ghost predicate IsLink(valid: string -> bool, c: string) {
    valid(c) && forall x <- c :: 0x20 <= x as int < 0x7F || 0xA0 <= x as int
  }

  /** a is among the first of cs before b is. */
  ghost predicate Before(cs: seq<string>, a: string, b: string) {
    exists n :: 0 <= n <= |cs| && a in cs[..n] && b !in cs[..n]
  }

  ghost predicate AsTheyAppear(cs: seq<string>, out: seq<string>) {
    forall i, j :: 0 <= i < j < |out| ==> Before(cs, out[i], out[j])
  }

  /** Of the candidates of a header exactly the links are returned, each once, in
      the order in which they first appear. */
  lemma ParsedLinks(valid: string -> bool, raw: string)
    ensures forall c :: c in Parse(valid, raw) <==> c in Candidates(Unfold(raw)) && IsLink(valid, c)
    ensures AsTheyAppear(Candidates(Unfold(raw)), Parse(valid, raw))
  {
    hide Candidates, Links, Dedupe, AsTheyAppear, IsLink;
    var cs := Candidates(Unfold(raw));
    LinksInOrder(valid, cs);
    DedupeHas(Links(valid, cs));
    LinksHas(valid, cs);
  }

  lemma {:induction false} LinksHas(valid: string -> bool, cs: seq<string>)
    ensures forall c :: c in Links(valid, cs) <==> c in cs && IsLink(valid, c)
    decreases |cs|
  {
    hide Usable, IsLink;
    if cs != [] {
      var front, last := cs[..|cs| - 1], cs[|cs| - 1];
      LinksHas(valid, front);
      UsableIsLink(valid, last);
      assert cs == front + [last];
    }
  }

  lemma {:induction false} LinksInOrder(valid: string -> bool, cs: seq<string>)
    ensures AsTheyAppear(cs, Dedupe(Links(valid, cs)))
    decreases |cs|
  {
    hide Dedupe, Links, IsLink, Usable;
    if cs == [] {
      NoLinks(valid);
    } else {
      var n := |cs| - 1;
      var was, c := Dedupe(Links(valid, cs[..n])), cs[n];
      LinksInOrder(valid, cs[..n]);
      assert cs[..|cs|] == cs;
      LinksStep(valid, cs, n);
      DedupeSnoc(Links(valid, cs[..n]), c);
      DedupeHas(Links(valid, cs[..n]));
      LinksHas(valid, cs[..n]);
      UsableIsLink(valid, c);
      OrderMore(cs, n, was, c);
    }
  }

  lemma OrderMore(cs: seq<string>, n: nat, was: seq<string>, c: string)
    requires n < |cs| && AsTheyAppear(cs[..n], was) && forall x <- was :: x in cs[..n]
    ensures AsTheyAppear(cs, was) && (c !in cs[..n] ==> AsTheyAppear(cs, was + [c]))
  {
    forall i, j | 0 <= i < j < |was| ensures Before(cs, was[i], was[j]) {
      var m :| 0 <= m <= n && was[i] in cs[..n][..m] && was[j] !in cs[..n][..m];
      assert cs[..n][..m] == cs[..m];
    }
    if c !in cs[..n] {
      forall i | 0 <= i < |was| ensures Before(cs, was[i], c) {
        assert was[i] in cs[..n];
      }
    }
  }

  lemma UsableIsLink(valid: string -> bool, c: string)
    ensures Usable(valid, c) <==> IsLink(valid, c)
  {
    if HasControl(c) {
      var i :| 0 <= i < |c| && (c[i] as int < 0x20 || c[i] as int == 0x7F || 0x80 <= c[i] as int <= 0x9F);
      assert c[i] in c;
    }
  }

  /** Bare links either side of a comma and a space are split apart there. */
  lemma SplitComma(s: string, r: string)
    ensures SplitBare(s + ", " + r) == SplitBare(s) + SplitBare(r)
  {
    assert s + ", " + r == s + [','] + (" " + r);
    SplitAt(s, ',', " " + r, "");
    assert " " + r == "" + [' '] + r;
    SplitAt("", ' ', r, "");
  }

  /** Every < in s that is not inside brackets has its >. */
  predicate Closed(s: string)
    decreases |s|
  {
    if s == "" then true
    else if s[0] == '<' then
      var j := Find(s[1..], '>');
      0 <= j && Closed(s[j + 2..])
    else
      var k := Find(s, '<');
      k < 0 || Closed(s[k..])
  }

  lemma ClosedPart(s: string)
    requires s != ""
    ensures Closed(s) <==>
            if s[0] == '<' then
              var j := Find(s[1..], '>');
              0 <= j && Closed(s[j + 2..])
            else
              var k := Find(s, '<');
              k < 0 || Closed(s[k..])
  {
  }

  lemma FindAppend(p: string, s: string, c: char)
    ensures Find(p + s, c) == if c in p then Find(p, c) else if c in s then |p| + Find(s, c) else -1
  {
    hide Find;
    var i, j := Find(p, c), Find(s, c);
    if c in p {
      Cut(p, s, i);
      FindIs(p + s, c, i);
    } else if c in s {
      Beyond(p, s, j);
      FindIs(p + s, c, |p| + j);
    } else {
      assert c !in p + s;
    }
  }

  lemma Beyond(p: string, s: string, j: nat)
    requires j < |s|
    ensures (p + s)[|p| + j] == s[j] && (p + s)[..|p| + j] == p + s[..j]
  {
  }

  lemma FindIs(s: string, c: char, i: nat)
    requires i < |s| && s[i] == c && c !in s[..i]
    ensures Find(s, c) == i
  {
    var f := Find(s, c);
    assert forall x :: 0 <= x < i ==> s[..i][x] == s[x];
    assert forall x :: 0 <= x < f ==> s[..f][x] == s[x];
  }

  lemma Cut(p: string, t: string, j: nat)
    requires j <= |p|
    ensures (p + t)[..j] == p[..j] && (p + t)[j..] == p[j..] + t
  {
  }

  /** What is left of p after its last bracket, and the candidates before that. */
  function Tail(p: string): string
    requires Closed(p)
    decreases |p|
  {
    if '<' !in p then p
    else if p[0] == '<' then Tail(p[Find(p[1..], '>') + 2..])
    else Tail(p[Find(p, '<')..])
  }

  function Heads(p: string): seq<string>
    requires Closed(p)
    decreases |p|
  {
    if '<' !in p then []
    else if p[0] == '<' then
      var j := Find(p[1..], '>');
      Bracketed(p[1..][..j]) + Heads(p[j + 2..])
    else
      var k := Find(p, '<');
      SplitBare(p[..k]) + Heads(p[k..])
  }

  /** Whatever follows, a text with closed brackets is read up to its tail first. */
  lemma {:induction false} Consume(p: string, t: string)
    requires Closed(p)
    ensures '<' !in Tail(p)
    ensures Candidates(p + t) == Heads(p) + Candidates(Tail(p) + t)
    ensures Closed(p + t) <==> Closed(Tail(p) + t)
    decreases |p|
  {
    hide SplitBare, Bracketed, Candidates;
    if '<' in p {
      if p[0] == '<' {
        var j := Find(p[1..], '>');
        var rest := p[j + 2..];
        StepBracket(p, t);
        Consume(rest, t);
        Reassociate(Bracketed(p[1..][..j]), Heads(rest), Candidates(Tail(rest) + t));
      } else {
        var k := Find(p, '<');
        var rest := p[k..];
        StepBare(p, t);
        Consume(rest, t);
        Reassociate(SplitBare(p[..k]), Heads(rest), Candidates(Tail(rest) + t));
      }
    }
  }

  lemma StepBracket(p: string, t: string)
    requires p != "" && p[0] == '<' && '>' in p[1..]
    ensures var j := Find(p[1..], '>');
      && Candidates(p + t) == Bracketed(p[1..][..j]) + Candidates(p[j + 2..] + t)
      && (Closed(p + t) <==> Closed(p[j + 2..] + t))
  {
    hide Bracketed, SplitBare, Candidates, Closed, Find;
    var j := Find(p[1..], '>');
    Cut(p, t, 1);
    Cut(p, t, j + 2);
    Cut(p[1..], t, j);
    FindAppend(p[1..], t, '>');
    FirstPart(p + t);
    ClosedPart(p + t);
  }

  lemma StepBare(p: string, t: string)
    requires p != "" && p[0] != '<' && '<' in p
    ensures var k := Find(p, '<');
      && Candidates(p + t) == SplitBare(p[..k]) + Candidates(p[k..] + t)
      && (Closed(p + t) <==> Closed(p[k..] + t))
  {
    hide Bracketed, SplitBare, Candidates, Closed, Find;
    FindAppend(p, t, '<');
    Cut(p, t, Find(p, '<'));
    FirstPart(p + t);
    ClosedPart(p + t);
  }

  lemma ConsumeAll(p: string)
    requires Closed(p)
    ensures Candidates(p) == Heads(p) + SplitBare(Tail(p))
  {
    hide Closed, Candidates, Heads, Tail, SplitBare, Find;
    Consume(p, "");
    assert p + "" == p && Tail(p) + "" == Tail(p);
    NoBrackets(Tail(p));
  }

  lemma NoBrackets(s: string)
    requires '<' !in s
    ensures Candidates(s) == SplitBare(s)
  {
    NoTokens();
    WholeOrCut(s);
    hide Candidates, SplitBare;
  }

  lemma NoTokens()
    ensures SplitBare("") == []
  {
  }

  /** Bare text and then s, whose first bracket is at k. */
  lemma BareThen(a: string, s: string)
    requires '<' !in a && a != ""
    ensures var k := Find(s, '<');
      && Candidates(a + s) == (if k < 0 then SplitBare(a + s) else SplitBare(a + s[..k]) + Candidates(s[k..]))
      && (Closed(a + s) <==> k < 0 || Closed(s[k..]))
  {
    hide Bracketed, SplitBare, Candidates, Closed, Find;
    assert (a + s)[0] == a[0] && a[0] in a;
    FindAppend(a, s, '<');
    FirstPart(a + s);
    ClosedPart(a + s);
    var k := Find(s, '<');
    if 0 <= k { assert (a + s)[..|a| + k] == a + s[..k] && (a + s)[|a| + k..] == s[k..]; }
  }

  lemma WholeOrCut(s: string)
    ensures var k := Find(s, '<');
      && Candidates(s) == (if k < 0 then SplitBare(s) else SplitBare(s[..k]) + Candidates(s[k..]))
      && (Closed(s) <==> k < 0 || Closed(s[k..]))
  {
    NoTokens();
    if s != "" && s[0] == '<' { assert s[..0] == "" && s[0..] == s; }
  }

  /** A bare beginning that ends in a comma and a space stands on its own. */
  lemma BareFirst(a: string, b: string)
    requires '<' !in a
    ensures Candidates(a + (", " + b)) == SplitBare(a) + Candidates(b)
    ensures Closed(a + (", " + b)) <==> Closed(b)
  {
    hide SplitBare, Candidates, Closed;
    var p, k := a + ", ", Find(b, '<');
    assert a + (", " + b) == p + b;
    BareThen(p, b);
    WholeOrCut(b);
    SplitComma(a, if k < 0 then b else b[..k]);
  }

  /** Joining a header to the one before it changes no candidate. */
  lemma JoinCandidates(a: string, b: string)
    requires Closed(a)
    ensures Candidates(a + ", " + b) == Candidates(a) + Candidates(b)
    ensures Closed(a + ", " + b) <==> Closed(b)
  {
    hide SplitBare, Candidates, Closed, Heads, Tail;
    Consume(a, ", " + b);
    ConsumeAll(a);
    BareFirst(Tail(a), b);
    assert a + ", " + b == a + (", " + b);
    assert Heads(a) + (SplitBare(Tail(a)) + Candidates(b)) == (Heads(a) + SplitBare(Tail(a))) + Candidates(b);
  }

  lemma {:induction false} BlanksBefore(s: string, t: string)
    requires t != "" && !IsBlank(t[0])
    ensures DropBlanks(s + t) == DropBlanks(s) + t
    decreases |s|
  {
    if s == "" {
      assert s + t == t;
    } else if IsBlank(s[0]) {
      Cut(s, t, 1);
      BlanksBefore(s[1..], t);
    }
  }

  /** A comma is no part of a fold. */
  lemma {:induction false} UnfoldBefore(a: string, t: string)
    requires t != "" && t[0] == ','
    ensures Unfold(a + t) == Unfold(a) + Unfold(t)
    decreases |a|
  {
    hide DropBlanks, Unfold;
    UnfoldStep(a);
    UnfoldStep(a + t);
    if a == "" {
      assert a + t == t;
    } else {
      Cut(a, t, 1);
      assert (a + t)[0] == a[0];
      if |a| > 1 { assert (a + t)[1] == a[1]; }
      if |a| > 1 && a[0] == '\r' && a[1] == '\n' {
        Cut(a, t, 2);
        BlanksBefore(a[2..], t);
        DropBlanksShorter(a[2..]);
        UnfoldBefore(DropBlanks(a[2..]), t);
      } else if a[0] == '\n' {
        BlanksBefore(a[1..], t);
        DropBlanksShorter(a[1..]);
        UnfoldBefore(DropBlanks(a[1..]), t);
      } else {
        UnfoldBefore(a[1..], t);
      }
    }
  }

  /** The first thing unfolding does to s. */
  lemma UnfoldStep(s: string)
    ensures Unfold(s) ==
            if s == "" then ""
            else if |s| > 1 && s[0] == '\r' && s[1] == '\n' then " " + Unfold(DropBlanks(s[2..]))
            else if s[0] == '\n' then " " + Unfold(DropBlanks(s[1..]))
            else if s[0] == '\r' then " " + Unfold(s[1..])
            else [s[0]] + Unfold(s[1..])
  {
  }

  lemma UnfoldJoin(a: string, b: string)
    ensures Unfold(a + ", " + b) == Unfold(a) + ", " + Unfold(b)
  {
    var t := ", " + b;
    assert a + ", " + b == a + t && t[1..] == " " + b && (" " + b)[1..] == b;
    UnfoldBefore(a, t);
    assert Unfold(t) == ", " + Unfold(b);
  }

  lemma {:induction false} LinksAppend(valid: string -> bool, x: seq<string>, y: seq<string>)
    ensures Links(valid, x + y) == Links(valid, x) + Links(valid, y)
    decreases |y|
  {
    if y == [] {
      assert x + y == x;
    } else {
      var front := y[..|y| - 1];
      LinksAppend(valid, x, front);
      assert (x + y)[..|x + y| - 1] == x + front;
    }
  }

  lemma {:induction false} DedupeHas(cs: seq<string>)
    ensures forall c :: c in Dedupe(cs) <==> c in cs
    decreases |cs|
  {
    if cs != [] {
      DedupeHas(cs[..|cs| - 1]);
      assert forall c :: c in cs <==> c in cs[..|cs| - 1] || c == cs[|cs| - 1];
    }
  }

  lemma DedupeSnoc(cs: seq<string>, c: string)
    ensures Dedupe(cs + [c]) == if c in cs then Dedupe(cs) else Dedupe(cs) + [c]
  {
    assert (cs + [c])[..|cs + [c]| - 1] == cs;
    DedupeHas(cs);
  }

  lemma {:induction false} DedupeParts(x: seq<string>, y: seq<string>)
    ensures Dedupe(x + y) == Dedupe(Dedupe(x) + Dedupe(y))
    decreases |y|
  {
    hide Dedupe;
    DedupeHas(x);
    if y == [] {
      NoLinks(c => true);
      assert x + y == x && Dedupe(x) + Dedupe(y) == Dedupe(x);
      DedupeTwice(x);
    } else {
      var front, c := y[..|y| - 1], y[|y| - 1];
      assert y == front + [c] && x + y == (x + front) + [c];
      DedupeParts(x, front);
      DedupeHas(front);
      DedupeSnoc(x + front, c);
      DedupeSnoc(front, c);
      if c !in front {
        assert Dedupe(x) + Dedupe(y) == (Dedupe(x) + Dedupe(front)) + [c];
        DedupeSnoc(Dedupe(x) + Dedupe(front), c);
      }
    }
  }

  lemma {:induction false} DedupeTwice(cs: seq<string>)
    ensures Dedupe(Dedupe(cs)) == Dedupe(cs)
    decreases |cs|
  {
    if cs != [] {
      var front := cs[..|cs| - 1];
      DedupeTwice(front);
      DedupeHas(front);
      DedupeHas(Dedupe(front));
      DedupeSnoc(Dedupe(front), cs[|cs| - 1]);
    }
  }

  /** A header joined to one whose brackets are closed parses to what the two
      parse to on their own, each link once, where it first appears. */
  lemma ParseJoin(valid: string -> bool, a: string, b: string)
    requires Closed(Unfold(a))
    ensures Parse(valid, a + ", " + b) == Dedupe(Parse(valid, a) + Parse(valid, b))
  {
    UnfoldJoin(a, b);
    JoinCandidates(Unfold(a), Unfold(b));
    LinksAppend(valid, Candidates(Unfold(a)), Candidates(Unfold(b)));
    DedupeParts(Links(valid, Candidates(Unfold(a))), Links(valid, Candidates(Unfold(b))));
  }

  /** A header that appeared more than once, as it is joined for parsing. */
  function JoinAll(hs: seq<string>): string
    requires hs != []
  {
    if |hs| == 1 then hs[0] else JoinAll(hs[..|hs| - 1]) + ", " + hs[|hs| - 1]
  }

  function ParseEach(valid: string -> bool, hs: seq<string>): seq<string> {
    if hs == [] then [] else ParseEach(valid, hs[..|hs| - 1]) + Parse(valid, hs[|hs| - 1])
  }

  lemma {:induction false} ClosedAll(hs: seq<string>)
    requires hs != [] && forall h <- hs :: Closed(Unfold(h))
    ensures Closed(Unfold(JoinAll(hs)))
    decreases |hs|
  {
    if |hs| > 1 {
      var front, last := hs[..|hs| - 1], hs[|hs| - 1];
      ClosedAll(front);
      UnfoldJoin(JoinAll(front), last);
      JoinCandidates(Unfold(JoinAll(front)), Unfold(last));
    }
  }

  /** Repeated headers joined parse to the links of each in turn, each link
      once, if the brackets of all but the last are closed. */
  lemma {:induction false} ParseRepeated(valid: string -> bool, hs: seq<string>)
    requires hs != [] && forall h <- hs[..|hs| - 1] :: Closed(Unfold(h))
    ensures Parse(valid, JoinAll(hs)) == Dedupe(ParseEach(valid, hs))
    decreases |hs|
  {
    var front, last := hs[..|hs| - 1], hs[|hs| - 1];
    if front == [] {
      assert hs == [last] && ParseEach(valid, front) + Parse(valid, last) == Parse(valid, last);
      DedupeTwice(Links(valid, Candidates(Unfold(last))));
    } else {
      forall h | h in front[..|front| - 1] ensures Closed(Unfold(h)) { assert h in front; }
      ParseRepeated(valid, front);
      ClosedAll(front);
      ParseJoin(valid, JoinAll(front), last);
      DedupeParts(ParseEach(valid, front), Parse(valid, last));
      DedupeTwice(Links(valid, Candidates(Unfold(last))));
    }
  }

  lemma BracketFirst(content: string, q: string)
    requires '>' !in content && StripWhite(content) != ""
    ensures Candidates("<" + content + ">" + q) == [StripWhite(content)] + Candidates(q)
  {
    var s := "<" + content + ">" + q;
    assert s[1..] == content + (">" + q);
    FindAppend(content, ">" + q, '>');
    assert s[1..][..|content|] == content && s[|content| + 2..] == q;
  }

  /** What is in brackets is one candidate, commas and all. */
  lemma BracketWhole(p: string, content: string, q: string)
    requires Closed(p) && '>' !in content && StripWhite(content) != ""
    ensures Candidates(p + ("<" + content + ">" + q)) == Candidates(p) + [StripWhite(content)] + Candidates(q)
  {
    BracketFirst(content, q);
    BeforeBracket(p, "<" + content + ">" + q);
    hide Candidates, Closed;
    Reassociate(Candidates(p), [StripWhite(content)], Candidates(q));
  }

  lemma Reassociate(a: seq<string>, b: seq<string>, c: seq<string>)
    ensures a + (b + c) == a + b + c
  {
  }

  /** An opening bracket ends whatever was before it. */
  lemma BeforeBracket(p: string, r: string)
    requires Closed(p) && r != "" && r[0] == '<'
    ensures Candidates(p + r) == Candidates(p) + Candidates(r)
  {
    hide SplitBare, Candidates, Closed, Heads, Tail;
    Consume(p, r);
    ConsumeAll(p);
    var u := Tail(p);
    if u == "" {
      assert u + r == r;
      NoTokens();
    } else {
      BareThen(u, r);
      FindIs(r, '<', 0);
      assert u + r[..0] == u && r[0..] == r;
    }
    Reassociate(Heads(p), SplitBare(u), Candidates(r));
  }

  lemma {:induction false} StripKeeps(s: string, c: char)
    requires c in s && !IsWhite(c)
    ensures c in StripWhite(s)
    decreases |s|
  {
    if s[0] != c || IsWhite(s[0]) { StripKeeps(s[1..], c); }
  }

  lemma LoneAngle()
    ensures Candidates(">") == [">"]
  {
    assert ">"[1..] == "" && "" + [">"[0]] == ">";
    assert Trim(">") == ">";
    assert Split(">", "") == Split("", ">");
  }

  /** An open bracket swallows what is joined on. */
  lemma {:induction false} OpenSwallows(a: string)
    requires !Closed(a)
    ensures Candidates(a + ", >") != Candidates(a) + Candidates(">")
    decreases |a|
  {
    var t := ", >";
    LoneAngle();
    if a[0] == '<' && '>' !in a[1..] {
      var r, s := a[1..], a + t;
      assert s[1..] == r + t && (r + t)[..|r| + 2] == r + ", " && s[|r| + 4..] == "";
      FindAppend(r, t, '>');
      assert Find(t, '>') == 2 by { assert t[..2] == ", "; FindIs(t, '>', 2); }
      assert ", "[0] in r + ", ";
      StripKeeps(r + ", ", ',');
      assert Candidates(s) == [StripWhite(r + ", ")];
      assert (Candidates(a) + [">"])[|Candidates(a)|] == ">";
      assert ',' !in ">";
    } else if a[0] == '<' {
      var j := Find(a[1..], '>');
      StepBracket(a, t);
      StepBracket(a, "");
      assert a + "" == a && a[j + 2..] + "" == a[j + 2..];
      OpenSwallows(a[j + 2..]);
      SamePrefix(Bracketed(a[1..][..j]), Candidates(a[j + 2..] + t), Candidates(a[j + 2..]), [">"]);
    } else {
      var k := Find(a, '<');
      StepBare(a, t);
      StepBare(a, "");
      assert a + "" == a && a[k..] + "" == a[k..];
      OpenSwallows(a[k..]);
      SamePrefix(SplitBare(a[..k]), Candidates(a[k..] + t), Candidates(a[k..]), [">"]);
    }
  }

  lemma SamePrefix(h: seq<string>, x: seq<string>, y: seq<string>, z: seq<string>)
    requires x != y + z
    ensures h + x != (h + y) + z
  {
    assert (h + x)[|h|..] == x && ((h + y) + z)[|h|..] == y + z;
  }

  /** A header can be joined to whatever follows without changing what is read
      of either exactly if its brackets are closed. */
  lemma JoinsExactly(a: string)
    ensures Closed(a) <==> forall b :: Candidates(a + ", " + b) == Candidates(a) + Candidates(b)
  {
    if Closed(a) {
      forall b ensures Candidates(a + ", " + b) == Candidates(a) + Candidates(b) { JoinCandidates(a, b); }
    } else {
      OpenSwallows(a);
      assert a + ", " + ">" == a + ", >";
    }
  }
}
