/** Editing the owner's config file in place (internal/config/edit.go): a merge
    of one mapping into another that keeps what is not this program's. */
module ConfigEdit {

  datatype Comments = Comments(head: string, line: string, foot: string)

  /** A YAML node. An alias or a tag is not part of this model. */
  datatype Node =
    | Scalar(text: string, c: Comments)
    | List(items: seq<Node>, c: Comments)
    | Mapping(entries: seq<Entry>, c: Comments)

  datatype Entry = Entry(key: string, kc: Comments, value: Node)

  function IndexOf(es: seq<Entry>, key: string): (i: int)
    ensures -1 <= i < |es|
    ensures 0 <= i ==> es[i].key == key && forall j :: 0 <= j < i ==> es[j].key != key
    ensures i < 0 ==> forall j :: 0 <= j < |es| ==> es[j].key != key
  {
    if es == [] then -1
    else if es[0].key == key then 0
    else
      var i := IndexOf(es[1..], key);
      if i < 0 then -1 else i + 1
  }

  method IndexOfKey(es: seq<Entry>, key: string) returns (i: int)
    ensures i == IndexOf(es, key)
  {
    i := 0;
    while i < |es|
      invariant 0 <= i <= |es| && forall j :: 0 <= j < i ==> es[j].key != key
    {
      if es[i].key == key { return; }
      i := i + 1;
    }
    i := -1;
  }

  function Either(a: string, b: string): string {
    if a == "" then b else a
  }

  /** The fresh node with the old one's comments where it has none. */
  function Carry(before: Node, after: Node): Node {
    var c := Comments(Either(after.c.head, before.c.head), Either(after.c.line, before.c.line),
        Either(after.c.foot, before.c.foot));
    match after
    case Scalar(t, _) => Scalar(t, c)
    case List(xs, _) => List(xs, c)
    case Mapping(es, _) => Mapping(es, c)
  }

  const EVERYTHING: string -> bool := _ => true

  /** What becomes of a value when a fresh one is written over it. */
  function Update(before: Node, after: Node): Node
    decreases after, 2
  {
    if before.Mapping? && after.Mapping? then Mapping(Merge(before.entries, after.entries, EVERYTHING), before.c)
    else Carry(before, after)
  }

  function Put(dst: seq<Entry>, e: Entry): seq<Entry>
    decreases e, 3
  {
    var j := IndexOf(dst, e.key);
    if j < 0 then dst + [e] else dst[j := dst[j].(value := Update(dst[j].value, e.value))]
  }

  function PutAll(dst: seq<Entry>, src: seq<Entry>): seq<Entry>
    decreases src, 0
  {
    if src == [] then dst else Put(PutAll(dst, src[..|src| - 1]), src[|src| - 1])
  }

  predicate Stays(src: seq<Entry>, owned: string -> bool, key: string) {
    !owned(key) || 0 <= IndexOf(src, key)
  }

  function Keep(dst: seq<Entry>, src: seq<Entry>, owned: string -> bool): seq<Entry> {
    if dst == [] then []
    else
      var e := dst[|dst| - 1];
      Keep(dst[..|dst| - 1], src, owned) + if Stays(src, owned, e.key) then [e] else []
  }

  /** src written into dst, and then what is owned and not in src dropped. */
  function Merge(dst: seq<Entry>, src: seq<Entry>, owned: string -> bool): seq<Entry>
    decreases src, 1
  {
    Keep(PutAll(dst, src), src, owned)
  }

  /** The in-place merge, loop by loop. */
  method MergeMapping(dst0: seq<Entry>, src: seq<Entry>, owned: string -> bool) returns (dst: seq<Entry>)
    ensures dst == Merge(dst0, src, owned)
    decreases src
  {
    dst := dst0;
    for i := 0 to |src|
      invariant dst == PutAll(dst0, src[..i])
    {
      var e := src[i];
      assert src[..i + 1][..i] == src[..i];
      assert PutAll(dst0, src[..i + 1]) == Put(dst, e);
      var j := IndexOfKey(dst, e.key);
      if j < 0 {
        dst := dst + [e];
      } else if dst[j].value.Mapping? && e.value.Mapping? {
        var nested := MergeMapping(dst[j].value.entries, e.value.entries, EVERYTHING);
        dst := dst[j := dst[j].(value := Mapping(nested, dst[j].value.c))];
      } else {
        dst := dst[j := dst[j].(value := Carry(dst[j].value, e.value))];
      }
    }
    assert src[..|src|] == src;
    var kept := [];
    for i := 0 to |dst|
      invariant kept == Keep(dst[..i], src, owned)
    {
      assert dst[..i + 1][..i] == dst[..i];
      if owned(dst[i].key) {
        var j := IndexOfKey(src, dst[i].key);
        if 0 <= j { kept := kept + [dst[i]]; }
      } else {
        kept := kept + [dst[i]];
      }
    }
    assert dst[..|dst|] == dst;
    dst := kept;
  }

  predicate Has(es: seq<Entry>, key: string) {
    0 <= IndexOf(es, key)
  }

  /** What key reads as. */
  function Get(es: seq<Entry>, key: string): Node
    requires Has(es, key)
  {
    es[IndexOf(es, key)].value
  }

  ghost predicate Distinct(es: seq<Entry>) {
    forall i, j :: 0 <= i < j < |es| ==> es[i].key != es[j].key
  }

  lemma IndexIs(es: seq<Entry>, key: string, i: nat)
    requires i < |es| && es[i].key == key && forall j :: 0 <= j < i ==> es[j].key != key
    ensures IndexOf(es, key) == i
  {
  }

  /** Writing one key changes what that key reads as, and nothing else. */
  lemma PutReads(dst: seq<Entry>, e: Entry, k: string)
    ensures Has(Put(dst, e), k) <==> Has(dst, k) || k == e.key
    ensures k != e.key && Has(dst, k) ==> Get(Put(dst, e), k) == Get(dst, k)
    ensures k == e.key ==> Get(Put(dst, e), k) == if Has(dst, k) then Update(Get(dst, k), e.value) else e.value
  {
    var after := Put(dst, e);
    hide Update;
    if Has(dst, k) {
      IndexIs(after, k, IndexOf(dst, k));
    } else if k == e.key {
      IndexIs(after, k, |dst|);
    }
  }

  lemma LastOnly(src: seq<Entry>, k: string)
    requires Distinct(src) && src != []
    ensures var front, last := src[..|src| - 1], src[|src| - 1];
      && (Has(src, k) <==> Has(front, k) || k == last.key)
      && (Has(front, k) ==> Get(src, k) == Get(front, k) && k != last.key)
      && (k == last.key ==> Has(src, k) && Get(src, k) == last.value)
  {
    var front, last := src[..|src| - 1], src[|src| - 1];
    if Has(front, k) { IndexIs(src, k, IndexOf(front, k)); }
    if k == last.key { IndexIs(src, k, |src| - 1); }
  }

  /** What k reads as once src is written into dst. */
  function Written(dst: seq<Entry>, src: seq<Entry>, k: string): Node
    requires Has(dst, k) || Has(src, k)
  {
    if !Has(src, k) then Get(dst, k) else if Has(dst, k) then Update(Get(dst, k), Get(src, k)) else Get(src, k)
  }

  lemma {:induction false} PutAllReads(dst: seq<Entry>, src: seq<Entry>, k: string)
    requires Distinct(src)
    ensures var after := PutAll(dst, src);
      && (Has(after, k) <==> Has(dst, k) || Has(src, k))
      && (Has(after, k) ==> Get(after, k) == Written(dst, src, k))
    decreases |src|
  {
    hide Update, Put;
    if src != [] {
      var front, last := src[..|src| - 1], src[|src| - 1];
      PutAllReads(dst, front, k);
      LastOnly(src, k);
      PutReads(PutAll(dst, front), last, k);
    }
  }

  lemma SnocReads(es: seq<Entry>, e: Entry, k: string)
    ensures Has(es + [e], k) <==> Has(es, k) || k == e.key
    ensures Has(es, k) ==> Get(es + [e], k) == Get(es, k)
    ensures !Has(es, k) && k == e.key ==> Get(es + [e], k) == e.value
  {
    if Has(es, k) { IndexIs(es + [e], k, IndexOf(es, k)); } else if k == e.key { IndexIs(es + [e], k, |es|); }
  }

  lemma {:induction false} KeepReads(dst: seq<Entry>, src: seq<Entry>, owned: string -> bool, k: string)
    ensures var after := Keep(dst, src, owned);
      && (Has(after, k) <==> Has(dst, k) && Stays(src, owned, k))
      && (Has(after, k) ==> Get(after, k) == Get(dst, k))
      && forall e <- after :: Stays(src, owned, e.key)
    decreases |dst|
  {
    if dst != [] {
      var front, last := dst[..|dst| - 1], dst[|dst| - 1];
      KeepReads(front, src, owned, k);
      assert dst == front + [last];
      SnocReads(front, last, k);
      SnocReads(Keep(front, src, owned), last, k);
      assert Keep(front, src, owned) + [] == Keep(front, src, owned);
      hide Has, Get, IndexOf;
    }
  }

  /** What a merged mapping reads as: every key of src, updated if it was there;
      of the others those that are not this program's, as they were. */
  lemma MergeReads(dst: seq<Entry>, src: seq<Entry>, owned: string -> bool, k: string)
    requires Distinct(src)
    ensures var after := Merge(dst, src, owned);
      && (Has(after, k) <==> Has(src, k) || (Has(dst, k) && !owned(k)))
      && (Has(after, k) ==> Get(after, k) == Written(dst, src, k))
  {
    hide Update, PutAll, Keep;
    PutAllReads(dst, src, k);
    KeepReads(PutAll(dst, src), src, owned, k);
  }

  /** The owner's own keys, with their values and comments, in order. */
  function Others(es: seq<Entry>, src: seq<Entry>, owned: string -> bool): seq<Entry> {
    if es == [] then []
    else
      var e := es[|es| - 1];
      Others(es[..|es| - 1], src, owned) + if !owned(e.key) && !Has(src, e.key) then [e] else []
  }

  lemma {:induction false} OthersUpdate(es: seq<Entry>, src: seq<Entry>, owned: string -> bool, j: nat, v: Node)
    requires j < |es| && Has(src, es[j].key)
    ensures Others(es[j := es[j].(value := v)], src, owned) == Others(es, src, owned)
    decreases |es|
  {
    var n := |es| - 1;
    if j < n {
      OthersUpdate(es[..n], src, owned, j, v);
      assert es[j := es[j].(value := v)][..n] == es[..n][j := es[j].(value := v)];
    } else {
      assert es[j := es[j].(value := v)][..n] == es[..n];
    }
  }

  lemma {:induction false} OthersPutAll(dst: seq<Entry>, src: seq<Entry>, part: seq<Entry>, owned: string -> bool)
    requires forall e <- part :: Has(src, e.key)
    ensures Others(PutAll(dst, part), src, owned) == Others(dst, src, owned)
    decreases |part|
  {
    hide Update;
    if part != [] {
      var front, e := part[..|part| - 1], part[|part| - 1];
      OthersPutAll(dst, src, front, owned);
      var was := PutAll(dst, front);
      var j := IndexOf(was, e.key);
      if 0 <= j {
        OthersUpdate(was, src, owned, j, Update(was[j].value, e.value));
      } else {
        assert (was + [e])[..|was + [e]| - 1] == was;
      }
    }
  }

  lemma {:induction false} OthersKept(dst: seq<Entry>, src: seq<Entry>, owned: string -> bool)
    ensures Others(Keep(dst, src, owned), src, owned) == Others(dst, src, owned)
    decreases |dst|
  {
    if dst != [] {
      var front, last := dst[..|dst| - 1], dst[|dst| - 1];
      OthersKept(front, src, owned);
      if Stays(src, owned, last.key) {
        OthersSnoc(Keep(front, src, owned), last, src, owned);
      } else {
        assert Keep(dst, src, owned) == Keep(front, src, owned);
      }
    }
  }

  lemma OthersSnoc(es: seq<Entry>, e: Entry, src: seq<Entry>, owned: string -> bool)
    ensures Others(es + [e], src, owned) == Others(es, src, owned) + if !owned(e.key) && !Has(src, e.key) then [e] else []
  {
    assert (es + [e])[..|es + [e]| - 1] == es;
  }

  /** The owner's own keys come through a merge unchanged and in order. */
  lemma OthersSurvive(dst: seq<Entry>, src: seq<Entry>, owned: string -> bool)
    ensures Others(Merge(dst, src, owned), src, owned) == Others(dst, src, owned)
  {
    forall e | e in src ensures Has(src, e.key) {
      var i :| 0 <= i < |src| && src[i] == e;
    }
    OthersPutAll(dst, src, src, owned);
    OthersKept(PutAll(dst, src), src, owned);
  }

  /** A comment on a value that is written over stays unless the fresh one has
      its own; the comments on a block that is merged into stay. */
  lemma CommentsStay(o: Node, f: Node)
    ensures var c := Update(o, f).c;
      if o.Mapping? && f.Mapping? then c == o.c
      else
        && c.head == (if f.c.head != "" then f.c.head else o.c.head)
        && c.line == (if f.c.line != "" then f.c.line else o.c.line)
        && c.foot == (if f.c.foot != "" then f.c.foot else o.c.foot)
  {
    hide Merge;
  }

  /** A key and the comments on it. */
  datatype Label = Label(key: string, kc: Comments)

  /** The keys of a mapping that p holds of, in order, with their comments. */
  function Labels(es: seq<Entry>, p: string -> bool): seq<Label> {
    if es == [] then []
    else
      var e := es[|es| - 1];
      Labels(es[..|es| - 1], p) + if p(e.key) then [Label(e.key, e.kc)] else []
  }

  lemma LabelsSnoc(es: seq<Entry>, e: Entry, p: string -> bool)
    ensures Labels(es + [e], p) == Labels(es, p) + if p(e.key) then [Label(e.key, e.kc)] else []
  {
    assert (es + [e])[..|es + [e]| - 1] == es;
  }

  lemma {:induction false} LabelsSame(es: seq<Entry>, p: string -> bool, q: string -> bool)
    requires forall e <- es :: p(e.key) <==> q(e.key)
    ensures Labels(es, p) == Labels(es, q)
  {
    if es != [] { LabelsSame(es[..|es| - 1], p, q); }
  }

  lemma {:induction false} LabelsUpdate(es: seq<Entry>, j: nat, v: Node, p: string -> bool)
    requires j < |es|
    ensures Labels(es[j := es[j].(value := v)], p) == Labels(es, p)
    decreases |es|
  {
    var n := |es| - 1;
    if j < n {
      LabelsUpdate(es[..n], j, v, p);
      assert es[j := es[j].(value := v)][..n] == es[..n][j := es[j].(value := v)];
    } else {
      assert es[j := es[j].(value := v)][..n] == es[..n];
    }
  }

  function Fresh(dst: seq<Entry>, p: string -> bool): string -> bool {
    k => p(k) && !Has(dst, k)
  }

  lemma {:induction false} LabelsPutAll(dst: seq<Entry>, src: seq<Entry>, p: string -> bool)
    requires Distinct(src)
    ensures Labels(PutAll(dst, src), p) == Labels(dst, p) + Labels(src, Fresh(dst, p))
    decreases |src|
  {
    hide *;
    LastOut(dst, src, p);
    if src != [] {
      var front, e := src[..|src| - 1], src[|src| - 1];
      LabelsPutAll(dst, front, p);
      PutAllReads(dst, front, e.key);
      LastOnly(src, e.key);
      LabelsPut(PutAll(dst, front), e, p);
      LabelsSnoc(front, e, Fresh(dst, p));
      assert src == front + [e];
      var more := if Fresh(dst, p)(e.key) then [Label(e.key, e.kc)] else [];
      assert (Labels(dst, p) + Labels(front, Fresh(dst, p))) + more == Labels(dst, p) + (Labels(front, Fresh(dst, p)) + more);
    }
  }

  lemma LastOut(dst: seq<Entry>, src: seq<Entry>, p: string -> bool)
    requires Distinct(src)
    ensures src == [] ==> PutAll(dst, src) == dst && Labels(src, Fresh(dst, p)) == [] && Labels(dst, p) + [] == Labels(dst, p)
    ensures src != [] ==>
              && Distinct(src[..|src| - 1])
              && PutAll(dst, src) == Put(PutAll(dst, src[..|src| - 1]), src[|src| - 1])
    ensures forall k :: Fresh(dst, p)(k) <==> p(k) && !Has(dst, k)
  {
  }

  lemma LabelsPut(es: seq<Entry>, e: Entry, p: string -> bool)
    ensures Labels(Put(es, e), p) == Labels(es, p) + if p(e.key) && !Has(es, e.key) then [Label(e.key, e.kc)] else []
  {
    hide Update, Labels;
    var j := IndexOf(es, e.key);
    if j < 0 {
      LabelsSnoc(es, e, p);
    } else {
      LabelsUpdate(es, j, Update(es[j].value, e.value), p);
      assert Labels(es, p) + [] == Labels(es, p);
    }
  }

  lemma {:induction false} LabelsKeep(dst: seq<Entry>, src: seq<Entry>, owned: string -> bool)
    ensures Labels(Keep(dst, src, owned), k => true) == Labels(dst, k => Stays(src, owned, k))
    decreases |dst|
  {
    if dst != [] {
      var front, last := dst[..|dst| - 1], dst[|dst| - 1];
      LabelsKeep(front, src, owned);
      if Stays(src, owned, last.key) {
        LabelsSnoc(Keep(front, src, owned), last, k => true);
      } else {
        assert Keep(dst, src, owned) == Keep(front, src, owned);
      }
    }
  }

  /** The keys of a merged mapping: first those there were, without the owned ones
      that src no longer has, and then the new ones of src, in order, each with
      the comments on it. */
  lemma KeysInOrder(dst: seq<Entry>, src: seq<Entry>, owned: string -> bool)
    requires Distinct(src)
    ensures Labels(Merge(dst, src, owned), k => true) ==
            Labels(dst, k => !owned(k) || Has(src, k)) + Labels(src, k => !Has(dst, k))
  {
    hide PutAll, Keep, Labels;
    var stay := k => Stays(src, owned, k);
    LabelsKeep(PutAll(dst, src), src, owned);
    LabelsPutAll(dst, src, stay);
    LabelsSame(dst, stay, k => !owned(k) || Has(src, k));
    forall e | e in src ensures Has(src, e.key) {
      var i :| 0 <= i < |src| && src[i] == e;
      HasKey(src, i);
    }
    LabelsSame(src, Fresh(dst, stay), k => !Has(dst, k));
  }

  /** Keys are distinct in every mapping of a node, as an encoder writes them. */
  ghost predicate Proper(n: Node) {
    match n
    case Scalar(_, _) => true
    case List(_, _) => true
    case Mapping(es, _) => Distinct(es) && forall i :: 0 <= i < |es| ==> Proper(es[i].value)
  }

  /** The two nodes say the same, comments and the order of keys aside. */
  ghost predicate Agrees(a: Node, b: Node)
    decreases b
  {
    match b
    case Scalar(text, _) => a.Scalar? && a.text == text
    case List(items, _) => a.List? && a.items == items
    case Mapping(es, _) =>
      && a.Mapping?
      && (forall i :: 0 <= i < |a.entries| ==> Has(es, a.entries[i].key))
      && forall i :: 0 <= i < |es| ==> Has(a.entries, es[i].key) && Agrees(Get(a.entries, es[i].key), es[i].value)
  }

  lemma HasKey(es: seq<Entry>, i: nat)
    requires i < |es|
    ensures Has(es, es[i].key) && (Distinct(es) ==> Get(es, es[i].key) == es[i].value)
  {
    if Distinct(es) { IndexIs(es, es[i].key, i); }
  }

  lemma {:induction false} AgreesSelf(n: Node, c: Comments)
    requires Proper(n)
    ensures Agrees(n, n) && (n.Mapping? ==> Agrees(Mapping(n.entries, c), n))
    decreases n
  {
    if n.Mapping? {
      forall i | 0 <= i < |n.entries|
        ensures Has(n.entries, n.entries[i].key) && Agrees(Get(n.entries, n.entries[i].key), n.entries[i].value)
      {
        HasKey(n.entries, i);
        AgreesSelf(n.entries[i].value, c);
      }
    }
  }

  /** Whatever a value is written over, it reads back, nested blocks exactly. */
  lemma {:induction false} UpdateAgrees(o: Node, f: Node)
    requires Proper(f)
    ensures Agrees(Update(o, f), f)
    decreases f
  {
    if o.Mapping? && f.Mapping? {
      var after := Merge(o.entries, f.entries, EVERYTHING);
      forall i | 0 <= i < |after| ensures Has(f.entries, after[i].key) {
        HasKey(after, i);
        MergeReads(o.entries, f.entries, EVERYTHING, after[i].key);
      }
      forall i | 0 <= i < |f.entries|
        ensures Has(after, f.entries[i].key) && Agrees(Get(after, f.entries[i].key), f.entries[i].value)
      {
        var k := f.entries[i].key;
        HasKey(f.entries, i);
        MergeReads(o.entries, f.entries, EVERYTHING, k);
        if Has(o.entries, k) {
          UpdateAgrees(Get(o.entries, k), f.entries[i].value);
        } else {
          AgreesSelf(f.entries[i].value, f.c);
        }
      }
    } else if f.Mapping? {
      AgreesSelf(f, Update(o, f).c);
    }
  }

  /** Every key of src reads back from the merge as src has it. */
  lemma ReadsBack(dst: seq<Entry>, src: seq<Entry>, owned: string -> bool, k: string)
    requires Proper(Mapping(src, Comments("", "", ""))) && Has(src, k)
    ensures Has(Merge(dst, src, owned), k) && Agrees(Get(Merge(dst, src, owned), k), Get(src, k))
  {
    MergeReads(dst, src, owned, k);
    if Has(dst, k) {
      UpdateAgrees(Get(dst, k), Get(src, k));
    } else {
      AgreesSelf(Get(src, k), Comments("", "", ""));
    }
  }

  lemma {:induction false} PutAllNothing(dst: seq<Entry>, src: seq<Entry>)
    requires forall i :: 0 <= i < |src| ==> Has(dst, src[i].key) && Update(Get(dst, src[i].key), src[i].value) == Get(dst, src[i].key)
    ensures PutAll(dst, src) == dst
    decreases |src|
  {
    if src != [] {
      PutAllNothing(dst, src[..|src| - 1]);
      var e := src[|src| - 1];
      var j := IndexOf(dst, e.key);
      assert dst[j].(value := Update(dst[j].value, e.value)) == dst[j];
      assert dst[j := dst[j]] == dst;
    }
  }

  lemma {:induction false} KeepNothing(dst: seq<Entry>, src: seq<Entry>, owned: string -> bool)
    requires forall e <- dst :: Stays(src, owned, e.key)
    ensures Keep(dst, src, owned) == dst
    decreases |dst|
  {
    hide Stays;
    if dst != [] {
      var front, e := dst[..|dst| - 1], dst[|dst| - 1];
      assert Stays(src, owned, e.key) by { assert e in dst; }
      KeepNothing(front, src, owned);
      assert dst == front + [e];
    }
  }

  /** Writing a value over itself, or again, changes nothing, comments included. */
  lemma {:induction false} UpdateAgain(o: Node, f: Node)
    requires Proper(f)
    ensures Update(f, f) == f && Update(Update(o, f), f) == Update(o, f)
    decreases f, 3
  {
    if f.Mapping? {
      SelfMerge(f);
      if o.Mapping? { EntriesAgain(o.entries, f, EVERYTHING); }
    }
  }

  lemma {:induction false} SelfMerge(f: Node)
    requires f.Mapping? && Proper(f)
    ensures Merge(f.entries, f.entries, EVERYTHING) == f.entries
    decreases f, 2
  {
    var es := f.entries;
    forall i | 0 <= i < |es| ensures Has(es, es[i].key) && Update(Get(es, es[i].key), es[i].value) == Get(es, es[i].key) {
      HasKey(es, i);
      UpdateAgain(es[i].value, es[i].value);
    }
    PutAllNothing(es, es);
    forall e | e in es ensures Stays(es, EVERYTHING, e.key) {
      var i :| 0 <= i < |es| && es[i] == e;
      HasKey(es, i);
    }
    KeepNothing(es, es, EVERYTHING);
  }

  lemma {:induction false} EntriesAgain(dst: seq<Entry>, f: Node, owned: string -> bool)
    requires f.Mapping? && Proper(f)
    ensures Merge(Merge(dst, f.entries, owned), f.entries, owned) == Merge(dst, f.entries, owned)
    decreases f, 1
  {
    var es := f.entries;
    var once := Merge(dst, es, owned);
    forall i | 0 <= i < |es| ensures Has(once, es[i].key) && Update(Get(once, es[i].key), es[i].value) == Get(once, es[i].key) {
      var k := es[i].key;
      HasKey(es, i);
      MergeReads(dst, es, owned, k);
      if Has(dst, k) {
        UpdateAgain(Get(dst, k), es[i].value);
      } else {
        UpdateAgain(es[i].value, es[i].value);
      }
    }
    PutAllNothing(once, es);
    KeepReads(PutAll(dst, es), es, owned, "");
    KeepNothing(once, es, owned);
  }

  /** Merging again changes nothing. */
  lemma MergeAgain(dst: seq<Entry>, src: seq<Entry>, owned: string -> bool)
    requires Proper(Mapping(src, Comments("", "", "")))
    ensures Merge(Merge(dst, src, owned), src, owned) == Merge(dst, src, owned)
  {
    EntriesAgain(dst, Mapping(src, Comments("", "", "")), owned);
  }

  const ACCOUNT_KEYS: set<string> := {"name", "host", "port", "username", "auth", "folders", "trash", "smtp", "oauth"}

  const OWNED_ACCOUNT_KEY: string -> bool := k => k in ACCOUNT_KEYS

  predicate Named(n: Node, name: string) {
    n.Mapping? && exists j :: 0 <= j < |n.entries| && n.entries[j].key == "name"
                         && n.entries[j].value.Scalar? && n.entries[j].value.text == name
  }

  /** The first account of that name, or -1. */
  function AccountIndex(accounts: seq<Node>, name: string): (i: int)
    ensures -1 <= i < |accounts|
    ensures 0 <= i ==> Named(accounts[i], name) && forall j :: 0 <= j < i ==> !Named(accounts[j], name)
    ensures i < 0 ==> forall j :: 0 <= j < |accounts| ==> !Named(accounts[j], name)
  {
    if accounts == [] then -1
    else if Named(accounts[0], name) then 0
    else
      var i := AccountIndex(accounts[1..], name);
      assert forall j :: 1 <= j < |accounts| ==> accounts[j] == accounts[1..][j - 1];
      if i < 0 then -1 else i + 1
  }

  method IndexOfAccount(accounts: seq<Node>, name: string) returns (i: int)
    ensures i == AccountIndex(accounts, name)
  {
    i := 0;
    while i < |accounts|
      invariant 0 <= i <= |accounts| && forall j :: 0 <= j < i ==> !Named(accounts[j], name)
    {
      if accounts[i].Mapping? {
        var es := accounts[i].entries;
        for j := 0 to |es|
          invariant forall x :: 0 <= x < j ==> !(es[x].key == "name" && es[x].value.Scalar? && es[x].value.text == name)
        {
          if es[j].key == "name" && es[j].value.Scalar? && es[j].value.text == name { return; }
        }
      }
      i := i + 1;
    }
    i := -1;
  }

  /** An account as it is encoded: a mapping with distinct keys, which has that name. */
  ghost predicate Encodes(node: Node, name: string) {
    Proper(node) && node.Mapping? && Has(node.entries, "name") && Get(node.entries, "name").Scalar?
    && Get(node.entries, "name").text == name
  }

  /** The account of that name updated, or appended if there is none. */
  function Upsert(accounts: seq<Node>, node: Node, name: string): seq<Node>
    requires node.Mapping?
  {
    var i := AccountIndex(accounts, name);
    if i < 0 then accounts + [node]
    else accounts[i := Mapping(Merge(accounts[i].entries, node.entries, OWNED_ACCOUNT_KEY), accounts[i].c)]
  }

  method UpsertAccount(accounts: seq<Node>, node: Node, name: string) returns (after: seq<Node>)
    requires node.Mapping?
    ensures after == Upsert(accounts, node, name)
  {
    var i := IndexOfAccount(accounts, name);
    if 0 <= i {
      var es := MergeMapping(accounts[i].entries, node.entries, OWNED_ACCOUNT_KEY);
      after := accounts[i := Mapping(es, accounts[i].c)];
    } else {
      after := accounts + [node];
    }
  }

  datatype Removal = Removed(accounts: seq<Node>) | NotFound

  /** rest is accounts without the first account of that name, in order. */
  ghost predicate TakenOut(accounts: seq<Node>, name: string, rest: seq<Node>) {
    exists before, gone, behind ::
      && accounts == before + [gone] + behind && rest == before + behind
      && Named(gone, name) && forall a <- before :: !Named(a, name)
  }

  /** There is one such list, and there is one exactly if some account has the name. */
  lemma TakenOutOnce(accounts: seq<Node>, name: string)
    ensures (exists rest :: TakenOut(accounts, name, rest)) <==> exists a :: a in accounts && Named(a, name)
    ensures forall x, y :: TakenOut(accounts, name, x) && TakenOut(accounts, name, y) ==> x == y
  {
    hide Named;
    var i := AccountIndex(accounts, name);
    forall x | TakenOut(accounts, name, x) ensures 0 <= i && x == accounts[..i] + accounts[i + 1..] {
      TakenOutAt(accounts, name, x);
    }
    if 0 <= i { TakesOut(accounts, name, i); }
    if a :| a in accounts && Named(a, name) {
      var j :| 0 <= j < |accounts| && accounts[j] == a;
    }
  }

  lemma TakenOutAt(accounts: seq<Node>, name: string, rest: seq<Node>)
    requires TakenOut(accounts, name, rest)
    ensures var i := AccountIndex(accounts, name); 0 <= i && rest == accounts[..i] + accounts[i + 1..]
  {
    hide Named;
    var before, gone, behind :| accounts == before + [gone] + behind && rest == before + behind
      && Named(gone, name) && forall a <- before :: !Named(a, name);
    var i := AccountIndex(accounts, name);
    assert accounts[|before|] == gone;
    assert forall j :: 0 <= j < |before| ==> accounts[j] == before[j] && before[j] in before;
    assert i == |before|;
    assert accounts[..i] == before && accounts[i + 1..] == behind;
  }

  lemma TakesOut(accounts: seq<Node>, name: string, i: nat)
    requires i < |accounts| && Named(accounts[i], name) && forall j :: 0 <= j < i ==> !Named(accounts[j], name)
    ensures TakenOut(accounts, name, accounts[..i] + accounts[i + 1..])
  {
    hide Named;
    var before, behind := accounts[..i], accounts[i + 1..];
    assert accounts == before + [accounts[i]] + behind;
    assert forall a <- before :: !Named(a, name);
  }

  /** The first account of that name goes and all others stay, in order; it is
      not found exactly if no account has the name. */
  method RemoveAccount(accounts: seq<Node>, name: string) returns (r: Removal)
    ensures r.NotFound? <==> forall a <- accounts :: !Named(a, name)
    ensures r.Removed? ==> TakenOut(accounts, name, r.accounts)
  {
    hide Named;
    var i := IndexOfAccount(accounts, name);
    if i < 0 { return NotFound; }
    TakesOut(accounts, name, i);
    r := Removed(accounts[..i] + accounts[i + 1..]);
  }

  lemma EncodesNamed(node: Node, name: string)
    requires Encodes(node, name)
    ensures Named(node, name)
  {
    assert node.entries[IndexOf(node.entries, "name")].key == "name";
  }

  /** After an account is written the list has one of that name; it reads back
      as written; and adding it was all that happened if there was none, so
      that removing it restores the list. */
  lemma UpsertMeaning(accounts: seq<Node>, node: Node, name: string, k: string)
    requires Encodes(node, name) && Has(node.entries, k)
    ensures var after, i := Upsert(accounts, node, name), AccountIndex(accounts, name);
      var at := if i < 0 then |accounts| else i;
      && at < |after| && after[at].Mapping? && Has(after[at].entries, k)
          && Agrees(Get(after[at].entries, k), Get(node.entries, k))
      && (forall j :: 0 <= j < |accounts| && j != at ==> after[j] == accounts[j])
      && (i < 0 ==> TakenOut(after, name, accounts))
  {
    var after, i := Upsert(accounts, node, name), AccountIndex(accounts, name);
    hide Named, Merge, Agrees, Proper;
    if i < 0 {
      AddThenRemove(accounts, node, name);
      AgreesSelf(Get(node.entries, k), node.c);
    } else {
      ReadsBack(accounts[i].entries, node.entries, OWNED_ACCOUNT_KEY, k);
    }
  }

  /** Of what the account had before, only the program's own keys can go, and
      they go exactly if the new account does not have them. */
  lemma UpsertDrops(accounts: seq<Node>, node: Node, name: string, k: string)
    requires Encodes(node, name) && !Has(node.entries, k) && 0 <= AccountIndex(accounts, name)
    ensures var i := AccountIndex(accounts, name);
      var was, now := accounts[i].entries, Upsert(accounts, node, name)[i].entries;
      var mine := k == "name" || k == "host" || k == "port" || k == "username" || k == "auth" || k == "folders"
                  || k == "trash" || k == "smtp" || k == "oauth";
      && (Has(now, k) <==> Has(was, k) && !mine) && (Has(now, k) ==> Get(now, k) == Get(was, k))
  {
    hide Merge;
    MergeReads(accounts[AccountIndex(accounts, name)].entries, node.entries, OWNED_ACCOUNT_KEY, k);
  }

  lemma AddThenRemove(accounts: seq<Node>, node: Node, name: string)
    requires Encodes(node, name) && AccountIndex(accounts, name) < 0
    ensures TakenOut(accounts + [node], name, accounts)
    ensures forall k :: Has(node.entries, k) ==> Proper(Get(node.entries, k))
  {
    EncodesNamed(node, name);
    hide Named;
    assert forall a <- accounts :: !Named(a, name);
    assert accounts + [node] == accounts + [node] + [] && accounts == accounts + [];
  }
}
