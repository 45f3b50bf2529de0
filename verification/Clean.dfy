/** Making a header value safe to print on a terminal
    (internal/headers/headers.go; control sequences: section 5.4 of ECMA-48).
    Text is a sequence of code points. */
module Clean {

  type Rune = r: nat | r <= 0x10FFFF

  const ESC: Rune := 0x1B
  const BEL: Rune := 0x07
  const ST: Rune := 0x9C
  const TAB: Rune := 0x09
  const SPACE: Rune := 0x20
  const BACKSLASH: Rune := 0x5C

  const CSI_KIND: Rune := 0x5B                                   // [
  const STRING_KINDS: set<Rune> := {0x5D, 0x50, 0x58, 0x5E, 0x5F}  // ] P X ^ _

  /** The 8-bit forms of CSI, OSC and the string introducers. */
  const C1_INTRODUCERS: set<Rune> := {0x9B, 0x9D, 0x90, 0x98, 0x9E, 0x9F}

  predicate IsControl(c: Rune) {
    c < 0x20 || c == 0x7F || 0x80 <= c <= 0x9F
  }

  /** White space in Unicode's sense, as ranges. */
  predicate IsSpace(c: Rune) {
    9 <= c <= 13 || c == 0x20 || c == 0x85 || c == 0xA0 || c == 0x1680 || 0x2000 <= c <= 0x200A
    || c == 0x2028 || c == 0x2029 || c == 0x202F || c == 0x205F || c == 0x3000
  }

  /** The 25 characters with the White_Space property in Unicode. */
  const WHITE_SPACE: set<Rune> :=
    {0x09, 0x0A, 0x0B, 0x0C, 0x0D, 0x20, 0x85, 0xA0, 0x1680, 0x2000, 0x2001, 0x2002, 0x2003, 0x2004, 0x2005, 0x2006, 0x2007,
     0x2008, 0x2009, 0x200A, 0x2028, 0x2029, 0x202F, 0x205F, 0x3000}

  lemma SpaceMeaning(c: Rune)
    ensures IsSpace(c) <==> c in WHITE_SPACE
  {
  }

  predicate IsFinal(c: Rune) {
    0x40 <= c <= 0x7E
  }

  /** The end of a control string at i: BEL, ST or ESC \. Its length, or 0. */
  function Terminator(r: seq<Rune>, i: nat): nat
    requires i < |r|
  {
    if r[i] == BEL || r[i] == ST then 1
    else if r[i] == ESC && i + 1 < |r| && r[i + 1] == BACKSLASH then 2
    else 0
  }

  /** Just past the escape sequence of that kind whose body starts at i. */
  function SkipEscape(r: seq<Rune>, i: nat, kind: Rune): (j: nat)
    requires i < |r|
    ensures i < j <= |r|
  {
    if kind == CSI_KIND then SkipCsi(r, i + 1)
    else if kind in STRING_KINDS then SkipString(r, i + 1)
    else i + 1
  }

  function SkipCsi(r: seq<Rune>, i: nat): (j: nat)
    requires i <= |r|
    ensures i <= j <= |r|
    decreases |r| - i
  {
    if i == |r| then i else if IsFinal(r[i]) then i + 1 else SkipCsi(r, i + 1)
  }

  function SkipString(r: seq<Rune>, i: nat): (j: nat)
    requires i <= |r|
    ensures i <= j <= |r|
    decreases |r| - i
  {
    if i == |r| then i else if Terminator(r, i) > 0 then i + Terminator(r, i) else SkipString(r, i + 1)
  }

  /** What is left of r from i on once escape sequences and controls are out. */
  function Bare(r: seq<Rune>, i: nat): seq<Rune>
    requires i <= |r|
    decreases |r| - i
  {
    if i == |r| then []
    else if r[i] == ESC && i + 1 < |r| then Bare(r, SkipEscape(r, i + 1, r[i + 1]))
    else if r[i] == ESC then []
    else if r[i] in C1_INTRODUCERS then Bare(r, SkipEscape(r, i, r[i] - 0x40))
    else if r[i] == TAB then [SPACE] + Bare(r, i + 1)
    else if IsControl(r[i]) then Bare(r, i + 1)
    else [r[i]] + Bare(r, i + 1)
  }

  /** The words of s, t being what is read of the current one. */
  function Words(s: seq<Rune>, t: seq<Rune>): seq<seq<Rune>>
    decreases |s|
  {
    if s == [] then (if t == [] then [] else [t])
    else if IsSpace(s[0]) then (if t == [] then [] else [t]) + Words(s[1..], [])
    else Words(s[1..], t + [s[0]])
  }

  function Join(ws: seq<seq<Rune>>): seq<Rune> {
    if ws == [] then [] else if |ws| == 1 then ws[0] else ws[0] + [SPACE] + Join(ws[1..])
  }

  function Cleaned(r: seq<Rune>): seq<Rune> {
    Join(Words(Bare(r, 0), []))
  }

  /** Skips one escape sequence. It always moves on and stays within the text. */
  method SkipSequence(r: seq<Rune>, at: nat, kind: Rune) returns (i: nat)
    requires at < |r|
    ensures i == SkipEscape(r, at, kind)
  {
    i := at + 1;
    if kind == CSI_KIND {
      while i < |r| && !IsFinal(r[i])
        invariant i <= |r| && SkipCsi(r, i) == SkipCsi(r, at + 1)
      {
        i := i + 1;
      }
      if i < |r| { i := i + 1; }
    } else if kind in STRING_KINDS {
      while i < |r|
        invariant i <= |r| && SkipString(r, i) == SkipString(r, at + 1)
      {
        if r[i] == BEL || r[i] == ST { return i + 1; }
        if r[i] == ESC && i + 1 < |r| && r[i + 1] == BACKSLASH { return i + 2; }
        i := i + 1;
      }
    }
  }

  method Strip(r: seq<Rune>) returns (b: seq<Rune>)
    ensures b == Bare(r, 0)
  {
    hide SkipEscape, IsControl, IsSpace;
    b := [];
    var i := 0;
    while i < |r|
      invariant i <= |r| && b + Bare(r, i) == Bare(r, 0)
    {
      var c := r[i];
      if c == ESC && i + 1 < |r| {
        i := SkipSequence(r, i + 1, r[i + 1]);
      } else if c == ESC {
        i := i + 1;
      } else if c in C1_INTRODUCERS {
        i := SkipSequence(r, i, c - 0x40);
      } else if c == TAB {
        assert b + ([SPACE] + Bare(r, i + 1)) == b + [SPACE] + Bare(r, i + 1);
        b, i := b + [SPACE], i + 1;
      } else if IsControl(c) {
        i := i + 1;
      } else {
        assert b + ([c] + Bare(r, i + 1)) == b + [c] + Bare(r, i + 1);
        b, i := b + [c], i + 1;
      }
    }
  }

  /** Splits into words and joins them with single spaces. */
  method JoinFields(s: seq<Rune>) returns (out: seq<Rune>)
    ensures out == Join(Words(s, []))
  {
    var words: seq<seq<Rune>>, word: seq<Rune> := [], [];
    for i := 0 to |s|
      invariant words + Words(s[i..], word) == Words(s, [])
    {
      assert s[i..][1..] == s[i + 1..];
      if IsSpace(s[i]) {
        if word != [] { words := words + [word]; }
        word := [];
      } else {
        word := word + [s[i]];
      }
    }
    assert s[|s|..] == [];
    if word != [] { words := words + [word]; }
    assert words == Words(s, []);
    out := Join(words);
  }

  method CleanText(r: seq<Rune>) returns (out: seq<Rune>)
    ensures out == Cleaned(r)
  {
    var b := Strip(r);
    out := JoinFields(b);
  }

  /** No C0 or C1 control and no DEL. */
  ghost predicate NoControl(s: seq<Rune>) {
    forall c <- s :: 0x20 <= c < 0x7F || 0xA0 <= c
  }

  lemma {:induction false} BareNoControl(r: seq<Rune>, i: nat)
    requires i <= |r|
    ensures NoControl(Bare(r, i))
    decreases |r| - i
  {
    if i < |r| {
      if r[i] == ESC {
        if i + 1 < |r| { BareNoControl(r, SkipEscape(r, i + 1, r[i + 1])); }
      } else if r[i] in C1_INTRODUCERS {
        BareNoControl(r, SkipEscape(r, i, r[i] - 0x40));
      } else {
        BareNoControl(r, i + 1);
      }
    }
  }

  /** A word: some text without white space or controls. */
  ghost predicate IsWord(w: seq<Rune>) {
    w != [] && forall c <- w :: !IsSpace(c) && !IsControl(c)
  }

  lemma {:induction false} WordsAreWords(s: seq<Rune>, t: seq<Rune>)
    requires NoControl(s) && (t == [] || IsWord(t))
    ensures forall w <- Words(s, t) :: IsWord(w)
    decreases |s|
  {
    if s != [] {
      assert s[0] in s && forall c <- s[1..] :: c in s;
      WordsAreWords(s[1..], if IsSpace(s[0]) then [] else t + [s[0]]);
    }
  }

  /** White space is single spaces, and between words only. */
  ghost predicate Tidy(s: seq<Rune>) {
    forall i :: 0 <= i < |s| && IsSpace(s[i]) ==>
      s[i] == SPACE && 0 < i < |s| - 1 && !IsSpace(s[i - 1]) && !IsSpace(s[i + 1])
  }

  lemma {:induction false} JoinIsTidy(ws: seq<seq<Rune>>)
    requires forall w <- ws :: IsWord(w)
    ensures NoControl(Join(ws)) && Tidy(Join(ws))
    ensures ws != [] ==> Join(ws) != [] && !IsSpace(Join(ws)[0])
    decreases |ws|
  {
    if |ws| == 1 {
      assert ws[0] in ws;
    } else if ws != [] {
      JoinIsTidy(ws[1..]);
      assert ws[0] in ws;
      TidyMore(ws[0], Join(ws[1..]));
    }
  }

  lemma TidyMore(w: seq<Rune>, s: seq<Rune>)
    requires IsWord(w) && NoControl(s) && Tidy(s) && s != [] && !IsSpace(s[0])
    ensures var j := w + [SPACE] + s; NoControl(j) && Tidy(j) && !IsSpace(j[0])
  {
    var j := w + [SPACE] + s;
    assert forall k :: 0 <= k < |w| ==> j[k] == w[k] && w[k] in w;
    forall i | 0 <= i < |j| && IsSpace(j[i])
      ensures j[i] == SPACE && 0 < i < |j| - 1 && !IsSpace(j[i - 1]) && !IsSpace(j[i + 1])
    {
      if i == |w| {
        assert j[i - 1] == w[i - 1] && w[i - 1] in w && j[i + 1] == s[0];
      } else if i > |w| {
        assert j[i] == s[i - |w| - 1];
      }
    }
  }

  /** What is printed has no control character, and no white space but single
      spaces between words. */
  lemma CleanedIsSafe(r: seq<Rune>)
    ensures NoControl(Cleaned(r)) && Tidy(Cleaned(r))
  {
    BareNoControl(r, 0);
    WordsAreWords(Bare(r, 0), []);
    JoinIsTidy(Words(Bare(r, 0), []));
  }

  lemma {:induction false} BareNothing(s: seq<Rune>, i: nat)
    requires NoControl(s) && i <= |s|
    ensures Bare(s, i) == s[i..]
    decreases |s| - i
  {
    if i < |s| {
      assert s[i] in s;
      BareNothing(s, i + 1);
    }
  }

  lemma {:induction false} WordThen(w: seq<Rune>, rest: seq<Rune>, t: seq<Rune>)
    requires forall c <- w :: !IsSpace(c)
    ensures Words(w + rest, t) == Words(rest, t + w)
    decreases |w|
  {
    if w == [] {
      assert w + rest == rest && t + w == t;
    } else {
      assert w[0] in w && (w + rest)[0] == w[0] && (w + rest)[1..] == w[1..] + rest;
      assert forall c <- w[1..] :: c in w;
      WordThen(w[1..], rest, t + [w[0]]);
      assert t + [w[0]] + w[1..] == t + w;
    }
  }

  lemma {:induction false} WordsOfJoin(ws: seq<seq<Rune>>)
    requires forall w <- ws :: IsWord(w)
    ensures Words(Join(ws), []) == ws
    decreases |ws|
  {
    if ws != [] {
      var w := ws[0];
      assert w in ws;
      if |ws| == 1 {
        LastWord(w);
        assert ws == [w];
      } else {
        WordsOfJoin(ws[1..]);
        NextWord(w, Join(ws[1..]));
        assert ws == [w] + ws[1..];
      }
    }
  }

  lemma LastWord(w: seq<Rune>)
    requires IsWord(w)
    ensures Words(w, []) == [w]
  {
    WordThen(w, [], []);
    assert w + [] == w && [] + w == w;
  }

  lemma NextWord(w: seq<Rune>, s: seq<Rune>)
    requires IsWord(w)
    ensures Words(w + [SPACE] + s, []) == [w] + Words(s, [])
  {
    var rest := [SPACE] + s;
    WordThen(w, rest, []);
    assert w + [SPACE] + s == w + rest && rest[1..] == s && [] + w == w;
  }

  /** White space and then a word. */
  datatype Field = Field(gap: seq<Rune>, word: seq<Rune>)

  ghost predicate FieldsOk(fs: seq<Field>) {
    && (forall f <- fs :: (forall c <- f.gap :: IsSpace(c)) && f.word != [] && forall c <- f.word :: !IsSpace(c))
    && forall i :: 0 < i < |fs| ==> fs[i].gap != []
  }

  function Spread(fs: seq<Field>): seq<Rune> {
    if fs == [] then [] else fs[0].gap + fs[0].word + Spread(fs[1..])
  }

  function WordsIn(fs: seq<Field>): seq<seq<Rune>> {
    if fs == [] then [] else [fs[0].word] + WordsIn(fs[1..])
  }

  lemma {:induction false} GapThen(gap: seq<Rune>, s: seq<Rune>, t: seq<Rune>)
    requires forall c <- gap :: IsSpace(c)
    ensures Words(gap + s, t) == if gap == [] then Words(s, t) else (if t == [] then [] else [t]) + Words(s, [])
    decreases |gap|
  {
    if gap == [] {
      assert gap + s == s;
    } else {
      assert gap[0] in gap && (gap + s)[0] == gap[0] && (gap + s)[1..] == gap[1..] + s;
      assert forall c <- gap[1..] :: c in gap;
      GapThen(gap[1..], s, []);
    }
  }

  /** Of words with white space between them, and maybe around them, the words
      are what is read, each as it is and in order. */
  lemma {:induction false} FieldsMeaning(fs: seq<Field>, last: seq<Rune>, t: seq<Rune>)
    requires FieldsOk(fs) && (forall c <- last :: IsSpace(c)) && (t != [] && fs != [] ==> fs[0].gap != [])
    ensures Words(Spread(fs) + last, t) == (if t == [] then [] else [t]) + WordsIn(fs)
    decreases |fs|
  {
    hide Words;
    if fs == [] {
      GapThen(last, [], t);
      assert Spread(fs) + last == last + [] == last;
      NoWords(t);
      NoWords([]);
      assert [t] + [] == [t];
    } else {
      var f, rest := fs[0], Spread(fs[1..]) + last;
      assert f in fs && FieldsOk(fs[1..]);
      assert Spread(fs) + last == f.gap + (f.word + rest);
      GapThen(f.gap, f.word + rest, t);
      WordThen(f.word, rest, []);
      assert [] + f.word == f.word;
      FieldsMeaning(fs[1..], last, f.word);
    }
  }

  lemma NoWords(t: seq<Rune>)
    ensures Words([], t) == if t == [] then [] else [t]
  {
  }

  /** So text is left as it is but for its white space. */
  lemma WordsStay(fs: seq<Field>, last: seq<Rune>)
    requires FieldsOk(fs) && (forall c <- last :: IsSpace(c)) && NoControl(Spread(fs) + last)
    ensures Cleaned(Spread(fs) + last) == Join(WordsIn(fs))
  {
    var s := Spread(fs) + last;
    BareNothing(s, 0);
    assert s[0..] == s;
    FieldsMeaning(fs, last, []);
    assert [] + WordsIn(fs) == WordsIn(fs);
  }

  /** Cleaning what is clean changes nothing. */
  lemma CleanedTwice(r: seq<Rune>)
    ensures Cleaned(Cleaned(r)) == Cleaned(r)
  {
    BareNoControl(r, 0);
    WordsAreWords(Bare(r, 0), []);
    var ws := Words(Bare(r, 0), []);
    CleanedIsSafe(r);
    BareNothing(Cleaned(r), 0);
    assert Cleaned(r)[0..] == Cleaned(r);
    WordsOfJoin(ws);
  }

  lemma {:induction false} SkipShift(p: seq<Rune>, r: seq<Rune>, i: nat)
    requires i <= |r|
    ensures SkipCsi(p + r, |p| + i) == |p| + SkipCsi(r, i) && SkipString(p + r, |p| + i) == |p| + SkipString(r, i)
    decreases |r| - i
  {
    if i < |r| { SkipShift(p, r, i + 1); }
  }

  /** Reading from a point on does not depend on what comes before it. */
  lemma {:induction false} BareShift(p: seq<Rune>, r: seq<Rune>, i: nat)
    requires i <= |r|
    ensures Bare(p + r, |p| + i) == Bare(r, i)
    decreases |r| - i
  {
    hide SkipEscape;
    if i < |r| {
      assert (p + r)[|p| + i] == r[i];
      if r[i] == ESC {
        if i + 1 < |r| {
          assert (p + r)[|p| + i + 1] == r[i + 1];
          EscapeShift(p, r, i + 1, r[i + 1]);
          BareShift(p, r, SkipEscape(r, i + 1, r[i + 1]));
        }
      } else if r[i] in C1_INTRODUCERS {
        EscapeShift(p, r, i, r[i] - 0x40);
        BareShift(p, r, SkipEscape(r, i, r[i] - 0x40));
      } else {
        BareShift(p, r, i + 1);
      }
    }
  }

  lemma EscapeShift(p: seq<Rune>, r: seq<Rune>, i: nat, kind: Rune)
    requires i < |r|
    ensures SkipEscape(p + r, |p| + i, kind) == |p| + SkipEscape(r, i, kind)
  {
    SkipShift(p, r, i + 1);
  }

  /** Where the body of a sequence starts, after ESC and its kind or after an
      8-bit introducer. */
  function BodyStart(e: seq<Rune>): nat {
    if e != [] && e[0] == 0x1B then 2 else 1
  }

  /** What kind of sequence e is: the character after ESC, or the one that the
      8-bit introducer stands for. */
  function KindOf(e: seq<Rune>): Rune {
    if e == [] then 0
    else if e[0] == 0x1B then (if |e| > 1 then e[1] else 0)
    else if 0x80 <= e[0] <= 0x9F && (e[0] - 0x40) as char in "[]PX^_" then e[0] - 0x40 else 0
  }

  lemma KindsMeaning(c: Rune)
    ensures c in C1_INTRODUCERS <==> 0x80 <= c <= 0x9F && (c - 0x40) as char in "[]PX^_"
    ensures c in STRING_KINDS <==> c < 0x80 && c as char in "]PX^_"
  {
  }

  /** A whole escape sequence, in its 7-bit or its 8-bit form: a control sequence
      up to its final character; a control string up to its terminator, which is
      BEL, ST or ESC \; or ESC and one other character. */
  ghost predicate IsSequence(e: seq<Rune>) {
    && KindOf(e) != 0
    && var o, n, kind := BodyStart(e), |e|, KindOf(e);
       if kind == 0x5B then o < n && 0x40 <= e[n - 1] <= 0x7E && forall i :: o <= i < n - 1 ==> !(0x40 <= e[i] <= 0x7E)
       else if kind < 0x80 && kind as char in "]PX^_" then exists k :: ClosesAt(e, k)
       else n == 2
  }

  /** A terminator starts at k. */
  ghost predicate EndsAt(e: seq<Rune>, k: nat) {
    k < |e| && (e[k] == 0x07 || e[k] == 0x9C || (e[k] == 0x1B && k + 1 < |e| && e[k + 1] == 0x5C))
  }

  /** The control string e is closed by the terminator at k, the first there is. */
  ghost predicate ClosesAt(e: seq<Rune>, k: nat) {
    && BodyStart(e) <= k && EndsAt(e, k) && |e| == (if e[k] == 0x1B then k + 2 else k + 1)
    && forall i :: BodyStart(e) <= i < k ==> !EndsAt(e, i)
  }

  lemma {:induction false} SkipsCsi(e: seq<Rune>, q: seq<Rune>, i: nat)
    requires i < |e| && IsFinal(e[|e| - 1]) && forall j :: i <= j < |e| - 1 ==> !IsFinal(e[j])
    ensures SkipCsi(e + q, i) == |e|
    decreases |e| - i
  {
    assert (e + q)[i] == e[i];
    if i < |e| - 1 { SkipsCsi(e, q, i + 1); }
  }

  lemma {:induction false} SkipsString(e: seq<Rune>, q: seq<Rune>, k: nat, i: nat)
    requires i <= k && EndsAt(e, k) && |e| == (if e[k] == 0x1B then k + 2 else k + 1)
    requires forall j :: i <= j < k ==> !EndsAt(e, j)
    ensures SkipString(e + q, i) == |e|
    decreases k - i
  {
    assert (e + q)[i] == e[i] && (i + 1 < |e| ==> (e + q)[i + 1] == e[i + 1]);
    assert Terminator(e, i) > 0 <==> EndsAt(e, i);
    assert Terminator(e + q, i) == Terminator(e, i);
    if i < k { SkipsString(e, q, k, i + 1); }
  }

  /** Whatever follows, a whole sequence is skipped to its end. */
  lemma SequenceSkipped(e: seq<Rune>, q: seq<Rune>)
    requires IsSequence(e)
    ensures Bare(e + q, 0) == Bare(q, 0)
  {
    var r, o, kind := e + q, BodyStart(e), KindOf(e);
    assert r[0] == e[0] && (|e| > 1 ==> r[1] == e[1]);
    KindsMeaning(e[0]);
    KindsMeaning(kind);
    SkippedWhole(e, q);
    hide SkipEscape, IsSequence;
    BareShift(e, q, 0);
  }

  lemma SkippedWhole(e: seq<Rune>, q: seq<Rune>)
    requires IsSequence(e)
    ensures BodyStart(e) <= |e| && SkipEscape(e + q, BodyStart(e) - 1, KindOf(e)) == |e|
  {
    var o, kind := BodyStart(e), KindOf(e);
    KindsMeaning(kind);
    if kind == 0x5B {
      SkipsCsi(e, q, o);
    } else if kind in STRING_KINDS {
      var k :| ClosesAt(e, k);
      SkipsString(e, q, k, o);
    }
  }

  /** Text that starts no escape sequence. */
  ghost predicate StartsNone(p: seq<Rune>) {
    forall c <- p :: c != 0x1B && !(0x80 <= c <= 0x9F && (c - 0x40) as char in "[]PX^_")
  }

  /** Such text with a space for each tab and without its other controls. */
  function Uncontrolled(p: seq<Rune>): seq<Rune> {
    if p == [] then []
    else (if p[0] == 0x09 then [SPACE] else if 0x20 <= p[0] < 0x7F || 0xA0 <= p[0] then [p[0]] else []) + Uncontrolled(p[1..])
  }

  lemma {:induction false} BarePlain(p: seq<Rune>, r: seq<Rune>)
    requires StartsNone(p)
    ensures Bare(p + r, 0) == Uncontrolled(p) + Bare(r, 0)
    decreases |p|
  {
    hide Bare;
    if p == [] {
      assert p + r == r;
    } else {
      var rest := p[1..];
      assert p[0] in p && forall c <- rest :: c in p;
      BarePlain(rest, r);
      assert p + r == [p[0]] + (rest + r);
      BareOne(p[0], rest + r);
      var first := if p[0] == 0x09 then [SPACE] else if 0x20 <= p[0] < 0x7F || 0xA0 <= p[0] then [p[0]] else [];
      assert first + (Uncontrolled(rest) + Bare(r, 0)) == first + Uncontrolled(rest) + Bare(r, 0);
    }
  }

  lemma BareOne(c: Rune, s: seq<Rune>)
    requires StartsNone([c])
    ensures Bare([c] + s, 0) ==
            (if c == 0x09 then [SPACE] else if 0x20 <= c < 0x7F || 0xA0 <= c then [c] else []) + Bare(s, 0)
  {
    hide Bare, SkipEscape;
    assert c in [c];
    KindsMeaning(c);
    BareShift([c], s, 0);
    BareAt([c] + s);
  }

  /** One character that starts no sequence. */
  lemma BareAt(r: seq<Rune>)
    requires r != [] && r[0] != ESC && r[0] !in C1_INTRODUCERS
    ensures Bare(r, 0) ==
            (if r[0] == TAB then [SPACE] else if IsControl(r[0]) then [] else [r[0]]) + Bare(r, 1)
  {
    hide SkipEscape;
  }

  /** Text as a terminal reads it: plain text and whole escape sequences. */
  datatype Piece = Text(s: seq<Rune>) | Escape(e: seq<Rune>)

  ghost predicate Whole(ps: seq<Piece>) {
    forall p <- ps :: if p.Text? then StartsNone(p.s) else IsSequence(p.e)
  }

  function Raw(p: Piece): seq<Rune> {
    if p.Text? then p.s else p.e
  }

  function Plain(p: Piece): seq<Rune> {
    if p.Text? then Uncontrolled(p.s) else []
  }

  function Written(ps: seq<Piece>): seq<Rune> {
    if ps == [] then [] else Raw(ps[0]) + Written(ps[1..])
  }

  /** The plain text alone, without its controls. */
  function Read(ps: seq<Piece>): seq<Rune> {
    if ps == [] then [] else Plain(ps[0]) + Read(ps[1..])
  }

  lemma PieceGone(p: Piece, q: seq<Rune>)
    requires if p.Text? then StartsNone(p.s) else IsSequence(p.e)
    ensures Bare(Raw(p) + q, 0) == Plain(p) + Bare(q, 0)
  {
    if p.Text? { BarePlain(p.s, q); } else { SequenceSkipped(p.e, q); }
  }

  /** Of plain text and whole escape sequences, in any order, the text is what is
      left, and what follows is read as it would be on its own. */
  lemma {:induction false} SequencesGone(ps: seq<Piece>, q: seq<Rune>)
    requires Whole(ps)
    ensures Bare(Written(ps) + q, 0) == Read(ps) + Bare(q, 0)
    decreases |ps|
  {
    hide Bare, IsSequence, StartsNone, Raw, Plain;
    if ps == [] {
      assert Written(ps) + q == q && Read(ps) + Bare(q, 0) == Bare(q, 0);
    } else {
      var rest := Written(ps[1..]) + q;
      SequencesGone(ps[1..], q);
      PieceGone(ps[0], rest);
      assert Written(ps) + q == Raw(ps[0]) + rest;
      assert Read(ps) + Bare(q, 0) == Plain(ps[0]) + (Read(ps[1..]) + Bare(q, 0));
    }
  }

  /** So a whole escape sequence goes, wherever it stands, and nothing of it is
      left to read as text. */
  lemma SequenceGone(ps: seq<Piece>, e: seq<Rune>, q: seq<Rune>)
    requires Whole(ps) && IsSequence(e)
    ensures Bare(Written(ps) + (e + q), 0) == Bare(Written(ps), 0) + Bare(q, 0)
  {
    assert Bare([], 0) == [];
    hide *;
    SequencesGone(ps, e + q);
    SequencesGone(ps, []);
    assert Written(ps) + [] == Written(ps) && Read(ps) + [] == Read(ps);
    SequenceSkipped(e, q);
  }
}
