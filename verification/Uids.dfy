/** Lists of UIDs: sorting, removing duplicates, and the newest of them. */
module Uids {
  import opened Mailbox

  ghost predicate Ascending(s: seq<nat>) {
    forall i, j :: 0 <= i < j < |s| ==> s[i] < s[j]
  }

  /** Ascending UIDs are as many messages. */
  lemma {:induction false} LocsCountIs(f: Folder, uids: seq<nat>)
    requires Ascending(uids)
    ensures |LocsOf(f, uids)| == |uids|
  {
    if uids != [] {
      var front, last := uids[..|uids| - 1], uids[|uids| - 1];
      assert uids == front + [last];
      LocsCountIs(f, front);
      hide Ascending;
      assert LocsOf(f, uids) == LocsOf(f, front) + {Loc(f, last)};
    }
  }

  ghost function Elems(s: seq<nat>): set<nat> {
    set u | u in s
  }

  /** u put in its place in an ascending list, unless it is there already. */
  function Insert(s: seq<nat>, u: nat): (t: seq<nat>)
    requires Ascending(s)
    ensures Ascending(t) && forall x :: x in t <==> x in s || x == u
    ensures |t| == if u in s then |s| else |s| + 1
  {
    if s == [] then [u]
    else
      var last := s[|s| - 1];
      if u == last then s
      else if last < u then s + [u]
      else
        var front := Insert(s[..|s| - 1], u);
        assert forall x :: x in s <==> x in s[..|s| - 1] || x == last;
        assert forall x :: x in front ==> x < last;
        assert forall i :: 0 <= i < |front| ==> front[i] in front;
        front + [last]
  }

  /** The UIDs of s, each once, ascending. */
  method SortDedupe(s: seq<nat>) returns (t: seq<nat>)
    ensures Ascending(t) && forall x :: x in t <==> x in s
  {
    t := [];
    for i := 0 to |s|
      invariant Ascending(t) && forall x :: x in t <==> x in s[..i]
    {
      t := Insert(t, s[i]);
      assert forall x :: x in s[..i + 1] <==> x in s[..i] || x == s[i];
    }
    assert s[..|s|] == s;
  }

  lemma {:induction false} ElemsCount(s: seq<nat>)
    requires Ascending(s)
    ensures |Elems(s)| == |s|
  {
    if s != [] {
      var front, last := s[..|s| - 1], s[|s| - 1];
      ElemsCount(front);
      assert Elems(s) == Elems(front) + {last};
    }
  }

  lemma SubsetCount<T>(a: set<T>, b: set<T>)
    requires a <= b
    ensures |a| <= |b| && (|a| == |b| ==> a == b)
  {
    assert b == a + (b - a);
  }
}
