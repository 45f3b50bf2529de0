/** The rows of the review table (internal/tui/model.go, internal/tui/types.go):
    sender groups, merged by domain or not, filtered, put into sections. */
module ReviewRows {

  datatype Group = Group(
    key: string, domain: string, count: nat, mixed: nat, keepCount: nat, categories: seq<string>,
    decided: bool, stillSending: bool)

  /** The sections in the order on screen. */
  type Section = s: nat | s < 4

  const PROTECTED: Section := 0
  const KEEP: Section := 1
  const STILL_SENDING: Section := 2
  const BULK: Section := 3

  datatype Item =
    | Header(of: Section, shown: nat)
    | Row(key: string, members: seq<string>, children: seq<Item>, child: bool, section: Section,
          count: nat, mixed: nat, keepCount: nat, categories: seq<string>,
          protected: bool, decided: bool, stillSending: bool)

  /** What the display is of: which rows a filter text matches and how rows and
      the members of a row are put in order. */
  datatype Look = Look(
    domainMode: bool, showDecided: bool, filter: string, matches: (string, Item) -> bool,
    arrange: seq<Item> -> seq<Item>, byCount: seq<Item> -> seq<Item>)

  /** Putting rows in order changes nothing but their order. */
  ghost predicate LookOk(k: Look) {
    forall s :: multiset(k.arrange(s)) == multiset(s) && multiset(k.byCount(s)) == multiset(s)
  }

  predicate Expandable(it: Item)
    requires it.Row?
  {
    |it.children| > 1
  }

  predicate Keepish(it: Item)
    requires it.Row?
  {
    it.categories != [] || (it.mixed > 0 && it.count > 0 && it.keepCount * 5 >= it.count)
  }

  function SectionOf(it: Item): Section
    requires it.Row?
  {
    if it.protected then PROTECTED
    else if Keepish(it) then KEEP
    else if it.stillSending then STILL_SENDING
    else BULK
  }

  function ItemOf(g: Group, prot: set<string>, child: bool): Item {
    Row(g.key, [g.key], [], child, BULK, g.count, g.mixed, g.keepCount, g.categories,
        g.key in prot, g.decided, g.stillSending)
  }

  function DomainOf(g: Group): string {
    if g.domain == "" then g.key else g.domain
  }

  /** dst and then what src adds to it, up to limit. */
  function AppendUnique(dst: seq<string>, src: seq<string>, limit: nat): seq<string>
    decreases |src|
  {
    if src == [] || |dst| >= limit then dst
    else AppendUnique(if src[0] in dst then dst else dst + [src[0]], src[1..], limit)
  }

  function EmptyDomain(d: string): Item {
    Row(d, [], [], false, BULK, 0, 0, 0, [], false, false, false)
  }

  /** A domain row with one more member. */
  function AddMember(it: Item, g: Group, prot: set<string>): Item
    requires it.Row?
  {
    it.(members := it.members + [g.key], children := it.children + [ItemOf(g, prot, true)],
        count := it.count + g.count, mixed := it.mixed + g.mixed, keepCount := it.keepCount + g.keepCount,
        categories := AppendUnique(it.categories, g.categories, 8),
        protected := it.protected || g.key in prot, decided := it.decided || g.decided,
        stillSending := it.stillSending || g.stillSending)
  }

  /** The row of domain d over the groups gs. */
  function Merged(gs: seq<Group>, d: string, prot: set<string>): (it: Item)
    ensures it.Row?
  {
    if gs == [] then EmptyDomain(d)
    else
      var g, it := gs[|gs| - 1], Merged(gs[..|gs| - 1], d, prot);
      if DomainOf(g) == d then AddMember(it, g, prot) else it
  }

  /** The domains of gs in the order they first appear. */
  function Domains(gs: seq<Group>): seq<string> {
    if gs == [] then []
    else
      var d, ds := DomainOf(gs[|gs| - 1]), Domains(gs[..|gs| - 1]);
      if d in ds then ds else ds + [d]
  }

  function Sorted(k: Look, it: Item): Item
    requires it.Row?
  {
    it.(children := k.byCount(it.children))
  }

  function BySender(gs: seq<Group>, prot: set<string>): seq<Item> {
    seq(|gs|, i requires 0 <= i < |gs| => ItemOf(gs[i], prot, false))
  }

  function ByDomain(k: Look, gs: seq<Group>, prot: set<string>): seq<Item> {
    var ds := Domains(gs);
    seq(|ds|, i requires 0 <= i < |ds| => Sorted(k, Merged(gs, ds[i], prot)))
  }

  /** The rows before filtering and sections. */
  function Base(k: Look, gs: seq<Group>, prot: set<string>): seq<Item> {
    if k.domainMode then ByDomain(k, gs, prot) else BySender(gs, prot)
  }

  /** Merges the groups of each domain in one pass. */
  method BaseItems(k: Look, gs: seq<Group>, prot: set<string>) returns (out: seq<Item>)
    ensures out == Base(k, gs, prot)
  {
    out := [];
    if !k.domainMode {
      for i := 0 to |gs|
        invariant out == BySender(gs, prot)[..i]
      {
        out := out + [ItemOf(gs[i], prot, false)];
      }
      return;
    }
    var order: seq<string>, merged: map<string, Item> := [], map[];
    for i := 0 to |gs|
      invariant order == Domains(gs[..i]) && forall d :: d in order <==> d in merged
      invariant forall d <- merged :: merged[d] == Merged(gs[..i], d, prot)
      invariant forall d :: d !in merged ==> Merged(gs[..i], d, prot) == EmptyDomain(d)
    {
      var g := gs[i];
      var d := DomainOf(g);
      assert gs[..i + 1][..i] == gs[..i];
      if d !in merged {
        merged, order := merged[d := EmptyDomain(d)], order + [d];
      }
      merged := merged[d := AddMember(merged[d], g, prot)];
    }
    assert gs[..|gs|] == gs;
    for i := 0 to |order|
      invariant out == ByDomain(k, gs, prot)[..i]
    {
      assert order[i] in order;
      out := out + [Sorted(k, merged[order[i]])];
    }
  }

  ghost predicate DistinctKeys(gs: seq<Group>) {
    forall i, j :: 0 <= i < j < |gs| ==> gs[i].key != gs[j].key
  }

  ghost function KeysOf(gs: seq<Group>): set<string> {
    set g | g in gs :: g.key
  }

  ghost function Among(ms: seq<string>): Group -> bool {
    (g: Group) => g.key in ms
  }

  /** The group is of the domain, or has none and is one by itself. */
  predicate OfDomain(g: Group, d: string) {
    if g.domain == "" then g.key == d else g.domain == d
  }

  ghost function InDomain(d: string): Group -> bool {
    (g: Group) => OfDomain(g, d)
  }

  /** The sum of f over the groups of gs that p holds of. */
  ghost function SumOver(gs: seq<Group>, p: Group -> bool, f: Group -> nat): nat {
    if gs == [] then 0
    else SumOver(gs[..|gs| - 1], p, f) + if p(gs[|gs| - 1]) then f(gs[|gs| - 1]) else 0
  }

  lemma {:induction false} SumSame(gs: seq<Group>, p: Group -> bool, q: Group -> bool, f: Group -> nat)
    requires forall g <- gs :: p(g) <==> q(g)
    ensures SumOver(gs, p, f) == SumOver(gs, q, f)
  {
    if gs != [] { SumSame(gs[..|gs| - 1], p, q, f); }
  }

  lemma {:induction false} SumOne(gs: seq<Group>, p: Group -> bool, f: Group -> nat, i: nat)
    requires i < |gs| && forall j :: 0 <= j < |gs| ==> (p(gs[j]) <==> j == i)
    ensures SumOver(gs, p, f) == f(gs[i])
    decreases |gs|
  {
    var front := gs[..|gs| - 1];
    if i == |gs| - 1 { SumNone(front, p, f); } else { SumOne(front, p, f, i); }
  }

  lemma {:induction false} SumNone(gs: seq<Group>, p: Group -> bool, f: Group -> nat)
    requires forall g <- gs :: !p(g)
    ensures SumOver(gs, p, f) == 0
  {
    if gs != [] { SumNone(gs[..|gs| - 1], p, f); }
  }

  /** The numbers of a row are the sums of its members'. */
  ghost predicate SumsOf(gs: seq<Group>, p: Group -> bool, it: Item) {
    && it.Row?
    && it.count == SumOver(gs, p, (x: Group) => x.count)
    && it.mixed == SumOver(gs, p, (x: Group) => x.mixed)
    && it.keepCount == SumOver(gs, p, (x: Group) => x.keepCount)
  }

  lemma SumsSame(gs: seq<Group>, p: Group -> bool, q: Group -> bool, it: Item)
    requires SumsOf(gs, p, it) && forall g <- gs :: p(g) <==> q(g)
    ensures SumsOf(gs, q, it)
  {
    SumSame(gs, p, q, (x: Group) => x.count);
    SumSame(gs, p, q, (x: Group) => x.mixed);
    SumSame(gs, p, q, (x: Group) => x.keepCount);
  }

  /** The categories of a row are its members', all of them if they are few. */
  ghost predicate CategoriesOf(gs: seq<Group>, p: Group -> bool, it: Item) {
    && it.Row?
    && (forall c <- it.categories :: exists g <- gs :: p(g) && c in g.categories)
    && (|it.categories| < 8 ==> forall g <- gs, c <- g.categories :: p(g) ==> c in it.categories)
  }

  /** What a row says is true of its members: it is protected, decided or still
      sending if one of them is, and its numbers are theirs together. */
  ghost predicate RowOf(gs: seq<Group>, prot: set<string>, it: Item) {
    && it.Row?
    && (forall m <- it.members :: m in KeysOf(gs))
    && Distinct(it.members)
    && (it.protected <==> exists m :: m in it.members && m in prot)
    && (it.decided <==> exists g :: g in gs && g.key in it.members && g.decided)
    && (it.stillSending <==> exists g :: g in gs && g.key in it.members && g.stillSending)
    && SumsOf(gs, Among(it.members), it) && CategoriesOf(gs, Among(it.members), it)
  }

  /** Who is in the row of a domain, and what they make of it. */
  ghost predicate DomainRow(gs: seq<Group>, d: string, prot: set<string>, it: Item) {
    Peers(gs, d, prot, it) && SumsOf(gs, InDomain(d), it) && CategoriesOf(gs, InDomain(d), it)
  }

  ghost predicate Peers(gs: seq<Group>, d: string, prot: set<string>, it: Item) {
    && it.Row? && !it.child
    && (forall m :: m in it.members <==> exists g :: g in gs && OfDomain(g, d) && g.key == m)
    && (it.protected <==> exists g :: g in gs && OfDomain(g, d) && g.key in prot)
    && (it.decided <==> exists g :: g in gs && OfDomain(g, d) && g.decided)
    && (it.stillSending <==> exists g :: g in gs && OfDomain(g, d) && g.stillSending)
    && (forall c :: c in it.children <==> exists g :: g in gs && OfDomain(g, d) && c == ItemOf(g, prot, true))
  }

  lemma {:induction false} MergedRow(gs: seq<Group>, d: string, prot: set<string>)
    ensures DomainRow(gs, d, prot, Merged(gs, d, prot))
    decreases |gs|
  {
    if gs != [] {
      hide DomainRow;
      var front, last := gs[..|gs| - 1], gs[|gs| - 1];
      MergedRow(front, d, prot);
      DomainRowMore(front, last, d, prot, Merged(front, d, prot));
      assert gs == front + [last];
    }
  }

  ghost predicate Distinct(ms: seq<string>) {
    forall i, j :: 0 <= i < j < |ms| ==> ms[i] != ms[j]
  }

  lemma {:induction false} MergedDistinct(gs: seq<Group>, d: string, prot: set<string>)
    requires DistinctKeys(gs)
    ensures Distinct(Merged(gs, d, prot).members)
    decreases |gs|
  {
    if gs != [] {
      var front, last := gs[..|gs| - 1], gs[|gs| - 1];
      MergedDistinct(front, d, prot);
      MergedRow(front, d, prot);
      var was := Merged(front, d, prot).members;
      forall i | 0 <= i < |was| ensures was[i] != last.key {
        assert was[i] in was;
        var g :| g in front && g.key == was[i];
        var j :| 0 <= j < |front| && front[j] == g;
        assert gs[j].key != gs[|gs| - 1].key;
      }
    }
  }

  lemma DomainRowMore(gs: seq<Group>, g: Group, d: string, prot: set<string>, it: Item)
    requires DomainRow(gs, d, prot, it)
    ensures DomainRow(gs + [g], d, prot, if DomainOf(g) == d then AddMember(it, g, prot) else it)
  {
    hide Peers, SumsOf, CategoriesOf, AddMember;
    PeersMore(gs, g, d, prot, it);
    SumsMore(gs, g, d, prot, it);
    CategoriesMore(gs, g, d, prot, it);
  }

  lemma PeersMore(gs: seq<Group>, g: Group, d: string, prot: set<string>, it: Item)
    requires Peers(gs, d, prot, it)
    ensures Peers(gs + [g], d, prot, if DomainOf(g) == d then AddMember(it, g, prot) else it)
  {
    var more := gs + [g];
    assert forall x :: x in more <==> x in gs || x == g;
    assert OfDomain(g, d) <==> DomainOf(g) == d;
    hide AppendUnique, DomainOf, OfDomain;
    if DomainOf(g) == d {
      var it' := AddMember(it, g, prot);
      assert forall m :: m in it'.members <==> m in it.members || m == g.key;
      assert forall c :: c in it'.children <==> c in it.children || c == ItemOf(g, prot, true);
      assert g in more;
    }
  }

  lemma SumsMore(gs: seq<Group>, g: Group, d: string, prot: set<string>, it: Item)
    requires SumsOf(gs, InDomain(d), it)
    ensures SumsOf(gs + [g], InDomain(d), if DomainOf(g) == d then AddMember(it, g, prot) else it)
  {
    hide AppendUnique;
    SumSnoc(gs, g, InDomain(d), (x: Group) => x.count);
    SumSnoc(gs, g, InDomain(d), (x: Group) => x.mixed);
    SumSnoc(gs, g, InDomain(d), (x: Group) => x.keepCount);
    var it' := if DomainOf(g) == d then AddMember(it, g, prot) else it;
    assert InDomain(d)(g) <==> DomainOf(g) == d;
    assert it'.count == SumOver(gs, InDomain(d), (x: Group) => x.count) + if DomainOf(g) == d then g.count else 0;
    assert it'.mixed == SumOver(gs, InDomain(d), (x: Group) => x.mixed) + if DomainOf(g) == d then g.mixed else 0;
    assert it'.keepCount == SumOver(gs, InDomain(d), (x: Group) => x.keepCount) + if DomainOf(g) == d then g.keepCount else 0;
  }

  lemma SumSnoc(gs: seq<Group>, g: Group, p: Group -> bool, f: Group -> nat)
    ensures SumOver(gs + [g], p, f) == SumOver(gs, p, f) + if p(g) then f(g) else 0
  {
    assert (gs + [g])[..|gs|] == gs;
  }

  lemma CategoriesMore(gs: seq<Group>, g: Group, d: string, prot: set<string>, it: Item)
    requires CategoriesOf(gs, InDomain(d), it)
    ensures CategoriesOf(gs + [g], InDomain(d), if DomainOf(g) == d then AddMember(it, g, prot) else it)
  {
    var p := InDomain(d);
    assert forall x :: x in gs + [g] <==> x in gs || x == g;
    if p(g) {
      var more := AppendUnique(it.categories, g.categories, 8);
      AppendUniqueMeaning(it.categories, g.categories, 8);
      hide AppendUnique, DomainOf;
      assert more == it.categories + more[|it.categories|..];
      forall c | c in more ensures exists x <- gs + [g] :: p(x) && c in x.categories {
        if c in it.categories {
          var x :| x in gs && p(x) && c in x.categories;
          assert x in gs + [g];
        } else {
          assert g in gs + [g] && c in g.categories;
        }
      }
    } else {
      forall c | c in it.categories ensures exists x <- gs + [g] :: p(x) && c in x.categories {
        var x :| x in gs && p(x) && c in x.categories;
        assert x in gs + [g];
      }
    }
  }

  lemma {:induction false} AppendUniqueMeaning(dst: seq<string>, src: seq<string>, limit: nat)
    ensures var out := AppendUnique(dst, src, limit);
      && (forall c <- out :: c in dst || c in src) && dst <= out
      && (|out| < limit ==> forall c <- src :: c in out)
    decreases |src|
  {
    if src != [] && |dst| < limit {
      var next := if src[0] in dst then dst else dst + [src[0]];
      var out := AppendUnique(dst, src, limit);
      AppendUniqueMeaning(next, src[1..], limit);
      assert out == next + out[|next|..] && src[0] in next;
      assert dst <= next && forall c <- src :: c == src[0] || c in src[1..];
    }
  }

  /** A row as it may be shown at the top of a section, with its members below. */
  ghost predicate TopRow(gs: seq<Group>, prot: set<string>, it: Item) {
    && RowOf(gs, prot, it) && !it.child
    && forall c <- it.children :: RowOf(gs, prot, c) && c.child && c.children == []
  }

  lemma SenderRow(gs: seq<Group>, prot: set<string>, g: Group, child: bool)
    requires DistinctKeys(gs) && g in gs
    ensures RowOf(gs, prot, ItemOf(g, prot, child))
  {
    var i :| 0 <= i < |gs| && gs[i] == g;
    forall x | x in gs && x.key in [g.key] ensures x == g {
      var j :| 0 <= j < |gs| && gs[j] == x;
      assert j == i;
    }
    SenderSums(gs, prot, g, child, i);
  }

  lemma SenderSums(gs: seq<Group>, prot: set<string>, g: Group, child: bool, i: nat)
    requires DistinctKeys(gs) && i < |gs| && gs[i] == g
    ensures SumsOf(gs, Among([g.key]), ItemOf(g, prot, child)) && CategoriesOf(gs, Among([g.key]), ItemOf(g, prot, child))
  {
    var p := Among([g.key]);
    assert forall j :: 0 <= j < |gs| ==> (p(gs[j]) <==> j == i);
    SumOne(gs, p, (x: Group) => x.count, i);
    SumOne(gs, p, (x: Group) => x.mixed, i);
    SumOne(gs, p, (x: Group) => x.keepCount, i);
    forall x | x in gs && p(x) ensures x == g {
      var j :| 0 <= j < |gs| && gs[j] == x;
    }
    assert g in gs && p(g);
  }

  lemma SameMembers(gs: seq<Group>, d: string, prot: set<string>, it: Item)
    requires DistinctKeys(gs) && DomainRow(gs, d, prot, it)
    ensures forall x <- gs :: x.key in it.members <==> OfDomain(x, d)
  {
    forall x | x in gs ensures x.key in it.members <==> OfDomain(x, d) {
      if x.key in it.members {
        var g :| g in gs && OfDomain(g, d) && g.key == x.key;
        var i :| 0 <= i < |gs| && gs[i] == g;
        var j :| 0 <= j < |gs| && gs[j] == x;
        assert i == j;
      }
    }
  }

  lemma DomainIsTop(gs: seq<Group>, d: string, prot: set<string>, it: Item)
    requires DistinctKeys(gs) && DomainRow(gs, d, prot, it)
    requires Distinct(it.members)
    ensures TopRow(gs, prot, it)
  {
    SameMembers(gs, d, prot, it);
    SumsSame(gs, InDomain(d), Among(it.members), it);
    hide SumsOf, DistinctKeys, OfDomain;
    forall c | c in it.children ensures RowOf(gs, prot, c) && c.child && c.children == [] {
      var g :| g in gs && OfDomain(g, d) && c == ItemOf(g, prot, true);
      SenderRow(gs, prot, g, true);
    }
  }

  /** Putting a domain row's members in order keeps it such a row. */
  lemma SortedIsTop(k: Look, gs: seq<Group>, prot: set<string>, it: Item)
    requires LookOk(k) && TopRow(gs, prot, it)
    ensures TopRow(gs, prot, Sorted(k, it))
  {
    forall c | c in Sorted(k, it).children ensures c in it.children {
      assert c in multiset(k.byCount(it.children));
    }
  }

  /** There is one row for each domain, in the order in which they first appear. */
  lemma {:induction false} DomainsMeaning(gs: seq<Group>)
    ensures Distinct(Domains(gs))
    ensures forall d :: d in Domains(gs) <==> exists g <- gs :: OfDomain(g, d)
    ensures gs != [] ==> Domains(gs[..|gs| - 1]) <= Domains(gs)
  {
    forall d { DomainHas(gs, d); }
    if gs != [] { DomainsMeaning(gs[..|gs| - 1]); }
  }

  lemma {:induction false} DomainHas(gs: seq<Group>, d: string)
    ensures d in Domains(gs) <==> exists g <- gs :: OfDomain(g, d)
  {
    if gs != [] {
      var front, last := gs[..|gs| - 1], gs[|gs| - 1];
      DomainHas(front, d);
      assert OfDomain(last, d) <==> d == DomainOf(last);
      hide OfDomain, DomainOf;
      assert forall g :: g in gs <==> g in front || g == last by { assert gs == front + [last]; }
    }
  }

  lemma BaseRows(k: Look, gs: seq<Group>, prot: set<string>)
    requires LookOk(k) && DistinctKeys(gs)
    ensures forall it <- Base(k, gs, prot) :: TopRow(gs, prot, it)
  {
    hide TopRow, LookOk;
    var base := Base(k, gs, prot);
    forall i | 0 <= i < |base| ensures TopRow(gs, prot, base[i]) {
      if k.domainMode {
        var it := Merged(gs, Domains(gs)[i], prot);
        MergedRow(gs, Domains(gs)[i], prot);
        MergedDistinct(gs, Domains(gs)[i], prot);
        DomainIsTop(gs, Domains(gs)[i], prot, it);
        SortedIsTop(k, gs, prot, it);
      } else {
        SenderIsTop(gs, prot, gs[i]);
      }
    }
  }

  lemma SenderIsTop(gs: seq<Group>, prot: set<string>, g: Group)
    requires DistinctKeys(gs) && g in gs
    ensures TopRow(gs, prot, ItemOf(g, prot, false))
  {
    SenderRow(gs, prot, g, false);
  }

  predicate Matching(k: Look, it: Item) {
    k.matches(k.filter, it)
  }

  /** A matching row that is left out because it was decided before. */
  predicate HiddenRow(k: Look, it: Item)
    requires it.Row?
  {
    Matching(k, it) && it.decided && !it.stillSending && !k.showDecided
  }

  predicate Shown(k: Look, it: Item)
    requires it.Row?
  {
    Matching(k, it) && !HiddenRow(k, it)
  }

  /** The rows of base shown in section s, as they are. */
  function Bucket(k: Look, base: seq<Item>, s: Section): (rows: seq<Item>)
    requires forall it <- base :: it.Row?
    ensures forall it <- rows :: it.Row? && it.section == s
  {
    if base == [] then []
    else
      var it := base[|base| - 1];
      Bucket(k, base[..|base| - 1], s) + if Shown(k, it) && SectionOf(it) == s then [it.(section := s)] else []
  }

  ghost function Count(base: seq<Item>, p: Item -> bool): nat {
    if base == [] then 0 else Count(base[..|base| - 1], p) + if p(base[|base| - 1]) then 1 else 0
  }

  ghost function HiddenCount(k: Look, base: seq<Item>): nat {
    Count(base, (it: Item) => it.Row? && HiddenRow(k, it))
  }

  /** The rows are in four sections, in this order: the protected; those that
      look transactional, for a category or a fifth of their mail; those that
      send in spite of an earlier unsubscribe; and the others. */
  ghost predicate BelongsIn(it: Item, s: Section)
    requires it.Row?
  {
    var kept := it.categories != [] || (0 < it.mixed && 0 < it.count <= 5 * it.keepCount);
    match s
    case 0 => it.protected
    case 1 => !it.protected && kept
    case 2 => !it.protected && !kept && it.stillSending
    case _ => !it.protected && !kept && !it.stillSending
  }

  lemma SectionMeaning(it: Item, s: Section)
    requires it.Row?
    ensures SectionOf(it) == s <==> BelongsIn(it, s)
  {
  }

  /** A matching row is on screen unless it was decided before, the sender has
      kept to that, and such rows are not asked for. */
  ghost predicate OnScreen(k: Look, it: Item)
    requires it.Row?
  {
    k.matches(k.filter, it) && (it.decided ==> it.stillSending || k.showDecided)
  }

  /** Every matching row is either hidden or in exactly one section. */
  lemma {:induction false} AllAccounted(k: Look, base: seq<Item>)
    requires forall it <- base :: it.Row?
    ensures HiddenCount(k, base) == Count(base, (it: Item) => it.Row? && k.matches(k.filter, it) && !OnScreen(k, it))
    ensures Count(base, (it: Item) => k.matches(k.filter, it)) ==
            HiddenCount(k, base) + |Bucket(k, base, PROTECTED)| + |Bucket(k, base, KEEP)|
            + |Bucket(k, base, STILL_SENDING)| + |Bucket(k, base, BULK)|
    decreases |base|
  {
    forall it | it in base ensures HiddenRow(k, it) <==> k.matches(k.filter, it) && !OnScreen(k, it) { }
    CountSame(base, (it: Item) => it.Row? && HiddenRow(k, it), (it: Item) => it.Row? && k.matches(k.filter, it)
        && !OnScreen(k, it));
    if base != [] { AllAccounted(k, base[..|base| - 1]); }
  }

  lemma {:induction false} CountSame(base: seq<Item>, p: Item -> bool, q: Item -> bool)
    requires forall it <- base :: p(it) <==> q(it)
    ensures Count(base, p) == Count(base, q)
  {
    if base != [] { CountSame(base[..|base| - 1], p, q); }
  }

  lemma {:induction false} BucketHas(k: Look, base: seq<Item>, s: Section)
    requires forall it <- base :: it.Row?
    ensures forall x :: x in Bucket(k, base, s) <==>
              exists it <- base :: OnScreen(k, it) && BelongsIn(it, s) && x == it.(section := s)
    decreases |base|
  {
    hide SectionOf, BelongsIn;
    if base != [] {
      var front, last := base[..|base| - 1], base[|base| - 1];
      BucketHas(k, front, s);
      SectionMeaning(last, s);
      assert base == front + [last];
      assert forall it :: it in base <==> it in front || it == last;
    }
  }

  function SectionAt(it: Item): Section {
    if it.Header? then it.of else it.section
  }

  function InSection(cs: seq<Item>, s: Section): seq<Item>
    requires forall c <- cs :: c.Row?
  {
    seq(|cs|, i requires 0 <= i < |cs| => cs[i].(section := s))
  }

  /** The rows of an open section, with the members of expanded domains. */
  function Body(rows: seq<Item>, s: Section, expanded: set<string>): seq<Item>
    requires forall it <- rows :: it.Row? && forall c <- it.children :: c.Row?
  {
    if rows == [] then []
    else
      var it := rows[|rows| - 1];
      Body(rows[..|rows| - 1], s, expanded) + [it]
      + if Expandable(it) && it.key in expanded then InSection(it.children, s) else []
  }

  ghost predicate RowsOk(rows: seq<Item>) {
    forall it <- rows :: it.Row? && forall c <- it.children :: c.Row?
  }

  lemma ArrangedOk(k: Look, base: seq<Item>, s: Section)
    requires LookOk(k) && RowsOk(base)
    ensures RowsOk(Bucket(k, base, s)) && RowsOk(k.arrange(Bucket(k, base, s)))
    ensures |k.arrange(Bucket(k, base, s))| == |Bucket(k, base, s)|
    ensures forall it :: it in k.arrange(Bucket(k, base, s)) <==> it in Bucket(k, base, s)
  {
    BucketOk(k, base, s);
    var b := Bucket(k, base, s);
    assert multiset(k.arrange(b)) == multiset(b);
    assert |multiset(k.arrange(b))| == |k.arrange(b)| && |multiset(b)| == |b|;
    forall it ensures it in k.arrange(b) <==> it in b {
      assert it in multiset(k.arrange(b)) <==> it in multiset(b);
    }
  }

  lemma {:induction false} BucketOk(k: Look, base: seq<Item>, s: Section)
    requires RowsOk(base)
    ensures RowsOk(Bucket(k, base, s))
    decreases |base|
  {
    if base != [] { BucketOk(k, base[..|base| - 1], s); }
  }

  /** One section on screen: nothing if it is empty, else a header with the
      number of its rows, and the rows unless it is collapsed. */
  ghost function Block(k: Look, base: seq<Item>, s: Section, collapsed: set<Section>, expanded: set<string>): seq<Item>
    requires LookOk(k) && RowsOk(base)
  {
    ArrangedOk(k, base, s);
    var rows := Bucket(k, base, s);
    if rows == [] then []
    else [Header(s, |rows|)] + if s in collapsed then [] else Body(k.arrange(rows), s, expanded)
  }

  /** The sections before n. */
  ghost function Upto(k: Look, base: seq<Item>, n: nat, collapsed: set<Section>, expanded: set<string>): seq<Item>
    requires LookOk(k) && RowsOk(base) && n <= 4
  {
    if n == 0 then [] else Upto(k, base, n - 1, collapsed, expanded) + Block(k, base, n - 1, collapsed, expanded)
  }

  /** The whole table. */
  ghost function Table(k: Look, base: seq<Item>, collapsed: set<Section>, expanded: set<string>): seq<Item>
    requires LookOk(k) && RowsOk(base)
  {
    Upto(k, base, 4, collapsed, expanded)
  }

  method PutBody(rows: seq<Item>, s: Section, expanded: set<string>) returns (out: seq<Item>)
    requires RowsOk(rows)
    ensures out == Body(rows, s, expanded)
  {
    out := [];
    for i := 0 to |rows|
      invariant out == Body(rows[..i], s, expanded)
    {
      assert rows[..i + 1][..i] == rows[..i];
      out := out + [rows[i]];
      if Expandable(rows[i]) && rows[i].key in expanded {
        ghost var above, below := out, InSection(rows[i].children, s);
        for j := 0 to |rows[i].children|
          invariant out == above + below[..j]
        {
          assert below[..j + 1] == below[..j] + [below[j]];
          out := out + [rows[i].children[j].(section := s)];
        }
        assert below[..|below|] == below;
      }
    }
    assert rows[..|rows|] == rows;
  }

  /** Fills the sections and counts what is hidden. */
  method FillBuckets(k: Look, base: seq<Item>) returns (hidden: nat, buckets: seq<seq<Item>>)
    requires RowsOk(base)
    ensures hidden == HiddenCount(k, base)
    ensures |buckets| == 4 && forall s: Section :: buckets[s] == Bucket(k, base, s)
  {
    hidden, buckets := 0, [[], [], [], []];
    for i := 0 to |base|
      invariant hidden == HiddenCount(k, base[..i])
      invariant |buckets| == 4 && forall s: Section :: buckets[s] == Bucket(k, base[..i], s)
    {
      var it := base[i];
      assert base[..i + 1][..i] == base[..i];
      if Matching(k, it) {
        if it.decided && !it.stillSending && !k.showDecided {
          hidden := hidden + 1;
        } else {
          var s := SectionOf(it);
          buckets := buckets[s := buckets[s] + [it.(section := s)]];
        }
      }
    }
    assert base[..|base|] == base;
  }

  /** The rows on screen and the number hidden. */
  method BuildTable(k: Look, base: seq<Item>, collapsed: set<Section>, expanded: set<string>)
    returns (hidden: nat, items: seq<Item>)
    requires LookOk(k) && RowsOk(base)
    ensures hidden == HiddenCount(k, base)
    ensures items == Table(k, base, collapsed, expanded)
  {
    hide LookOk, RowsOk, Block, Bucket;
    var buckets;
    hidden, buckets := FillBuckets(k, base);
    items := [];
    for s := 0 to 4
      invariant items == Upto(k, base, s, collapsed, expanded)
    {
      var block := PutBlock(k, base, buckets[s], s, collapsed, expanded);
      items := items + block;
    }
  }

  method PutBlock(k: Look, ghost base: seq<Item>, rows: seq<Item>, s: Section, collapsed: set<Section>, expanded: set<string>)
    returns (items: seq<Item>)
    requires LookOk(k) && RowsOk(base) && rows == Bucket(k, base, s)
    ensures items == Block(k, base, s, collapsed, expanded)
  {
    hide LookOk, Body;
    ArrangedOk(k, base, s);
    items := [];
    if rows == [] { return; }
    items := [Header(s, |rows|)];
    if s !in collapsed {
      var body := PutBody(k.arrange(rows), s, expanded);
      items := items + body;
    }
  }

  /** The rows of section s at the top level of items, in order. */
  ghost function TopsOf(items: seq<Item>, s: Section): seq<Item> {
    if items == [] then []
    else
      var it := items[|items| - 1];
      TopsOf(items[..|items| - 1], s) + if it.Row? && !it.child && it.section == s then [it] else []
  }

  lemma {:induction false} TopsAppend(a: seq<Item>, b: seq<Item>, s: Section)
    ensures TopsOf(a + b, s) == TopsOf(a, s) + TopsOf(b, s)
    decreases |b|
  {
    if b == [] {
      assert a + b == a;
    } else {
      var front := b[..|b| - 1];
      TopsAppend(a, front, s);
      assert (a + b)[..|a + b| - 1] == a + front && (a + b)[|a + b| - 1] == b[|b| - 1];
    }
  }

  /** Rows of a section, and members under them. */
  ghost predicate Placed(rows: seq<Item>, s: Section) {
    forall it <- rows :: it.Row? && !it.child && it.section == s && forall c <- it.children :: c.Row? && c.child
  }

  lemma {:induction false} BodyPlaced(rows: seq<Item>, s: Section, expanded: set<string>)
    requires Placed(rows, s)
    ensures forall it <- Body(rows, s, expanded) :: it.Row? && it.section == s
    decreases |rows|
  {
    if rows != [] { BodyPlaced(rows[..|rows| - 1], s, expanded); }
  }

  lemma {:induction false} BodyTops(rows: seq<Item>, s: Section, expanded: set<string>, t: Section)
    requires Placed(rows, s)
    ensures TopsOf(Body(rows, s, expanded), t) == if t == s then rows else []
    decreases |rows|
  {
    hide InSection, Expandable;
    if rows != [] {
      var front, it := rows[..|rows| - 1], rows[|rows| - 1];
      assert rows == front + [it] && Placed(front, s);
      BodyTops(front, s, expanded, t);
      hide TopsOf, Placed;
      var more := BodySnoc(rows, s, expanded, t);
      hide Body;
      TopsAppend(Body(front, s, expanded), [it] + more, t);
    }
  }

  lemma BodySnoc(rows: seq<Item>, s: Section, expanded: set<string>, t: Section) returns (more: seq<Item>)
    requires rows != [] && Placed(rows, s)
    ensures var it := rows[|rows| - 1];
      && Body(rows, s, expanded) == Body(rows[..|rows| - 1], s, expanded) + ([it] + more)
      && TopsOf([it] + more, t) == if t == s then [it] else []
  {
    var it := rows[|rows| - 1];
    more := if Expandable(it) && it.key in expanded then InSection(it.children, s) else [];
    assert it in rows;
    MoreTops(it, s, expanded, t);
    hide TopsOf, InSection, Expandable;
  }

  lemma MoreTops(it: Item, s: Section, expanded: set<string>, t: Section)
    requires it.Row? && !it.child && it.section == s && forall c <- it.children :: c.Row? && c.child
    ensures var more := if Expandable(it) && it.key in expanded then InSection(it.children, s) else [];
      TopsOf([it] + more, t) == if t == s then [it] else []
  {
    var more := if Expandable(it) && it.key in expanded then InSection(it.children, s) else [];
    NoTops(more, t);
    OneTop(it, s, t);
    TopsAppend([it], more, t);
  }

  lemma OneTop(it: Item, s: Section, t: Section)
    requires it.Row? && !it.child && it.section == s
    ensures TopsOf([it], t) == (if t == s then [it] else []) && TopsOf([], t) == []
  {
    assert [it][..0] == [];
  }

  lemma {:induction false} NoTops(items: seq<Item>, s: Section)
    requires forall it <- items :: it.Row? && it.child
    ensures TopsOf(items, s) == []
    decreases |items|
  {
    if items != [] { NoTops(items[..|items| - 1], s); }
  }

  /** Every part of the table is in its section, the sections ascend, and a
      section that is not collapsed has as many rows as its header says. */
  ghost predicate InOrder(items: seq<Item>) {
    forall i, j :: 0 <= i < j < |items| ==> SectionAt(items[i]) <= SectionAt(items[j])
  }

  ghost predicate TopRows(base: seq<Item>) {
    forall it <- base :: it.Row? && !it.child && forall c <- it.children :: c.Row? && c.child
  }

  lemma ArrangedPlaced(k: Look, base: seq<Item>, s: Section)
    requires LookOk(k) && RowsOk(base) && TopRows(base)
    ensures Placed(k.arrange(Bucket(k, base, s)), s)
  {
    hide LookOk;
    ArrangedOk(k, base, s);
    BucketPlaced(k, base, s);
  }

  lemma BlockOk(k: Look, base: seq<Item>, s: Section, collapsed: set<Section>, expanded: set<string>, t: Section)
    requires LookOk(k) && RowsOk(base) && TopRows(base)
    ensures forall it <- Block(k, base, s, collapsed, expanded) :: SectionAt(it) == s
    ensures TopsOf(Block(k, base, s, collapsed, expanded), t) ==
            if t == s && s !in collapsed then k.arrange(Bucket(k, base, s)) else []
    ensures forall it <- Block(k, base, s, collapsed, expanded) :: it.Header? ==> it == Header(s, |Bucket(k, base, s)|)
  {
    hide LookOk, TopRows, Placed, Body, Bucket, TopsOf;
    ArrangedOk(k, base, s);
    ArrangedPlaced(k, base, s);
    var rows, top := Bucket(k, base, s), Header(s, |Bucket(k, base, s)|);
    var body := Body(k.arrange(rows), s, expanded);
    HeaderTops(top, t);
    BodyPlaced(k.arrange(rows), s, expanded);
    BodyTops(k.arrange(rows), s, expanded, t);
    TopsAppend([top], body, t);
    assert [top] + [] == [top];
  }

  lemma HeaderTops(top: Item, t: Section)
    requires top.Header?
    ensures TopsOf([top], t) == [] && TopsOf([], t) == []
  {
    assert [top][..0] == [];
  }

  lemma {:induction false} BucketPlaced(k: Look, base: seq<Item>, s: Section)
    requires TopRows(base)
    ensures Placed(Bucket(k, base, s), s)
    decreases |base|
  {
    if base != [] { BucketPlaced(k, base[..|base| - 1], s); }
  }

  lemma {:induction false} UptoOk(k: Look, base: seq<Item>, n: nat, collapsed: set<Section>, expanded: set<string>, t: Section)
    requires LookOk(k) && RowsOk(base) && TopRows(base) && n <= 4
    ensures var items := Upto(k, base, n, collapsed, expanded);
      && InOrder(items) && (forall it <- items :: SectionAt(it) < n)
      && TopsOf(items, t) == (if t < n && t !in collapsed then k.arrange(Bucket(k, base, t)) else [])
      && forall it <- items :: it.Header? ==> it.shown == |Bucket(k, base, it.of)|
  {
    hide LookOk, RowsOk, TopRows, Bucket, Block;
    if 0 < n {
      UptoOk(k, base, n - 1, collapsed, expanded, t);
      BlockOk(k, base, n - 1, collapsed, expanded, t);
      var a, b := Upto(k, base, n - 1, collapsed, expanded), Block(k, base, n - 1, collapsed, expanded);
      TopsAppend(a, b, t);
      JoinInOrder(a, b, n - 1);
    }
  }

  lemma JoinInOrder(a: seq<Item>, b: seq<Item>, s: Section)
    requires InOrder(a) && (forall it <- a :: SectionAt(it) < s) && forall it <- b :: SectionAt(it) == s
    ensures InOrder(a + b)
  {
    forall i, j | 0 <= i < j < |a + b| ensures SectionAt((a + b)[i]) <= SectionAt((a + b)[j]) {
      if j < |a| {
      } else {
        assert (a + b)[j] in b;
        if i < |a| { assert a[i] in a; } else { assert (a + b)[i] in b; }
      }
    }
  }

  /** The table as the user sees it: its sections ascend, each header counts the
      rows of its section, and those are there in the order chosen, unless the
      section is collapsed. */
  lemma TableMeaning(k: Look, base: seq<Item>, collapsed: set<Section>, expanded: set<string>, s: Section)
    requires LookOk(k) && RowsOk(base) && TopRows(base)
    ensures var items := Table(k, base, collapsed, expanded);
      && InOrder(items)
      && (forall it <- items :: it.Header? ==> it.shown == |Bucket(k, base, it.of)|)
      && TopsOf(items, s) == if s in collapsed then [] else k.arrange(Bucket(k, base, s))
  {
    UptoOk(k, base, 4, collapsed, expanded, s);
  }

  /** What is on screen below the header of section s: its rows, and the members
      of those domains that are expanded. */
  ghost predicate Below(k: Look, base: seq<Item>, s: Section, expanded: set<string>, x: Item)
    requires forall it <- base :: it.Row? && forall c <- it.children :: c.Row?
  {
    exists it <- base :: OnScreen(k, it) && BelongsIn(it, s) &&
      (|| x == it.(section := s)
       || (1 < |it.children| && it.key in expanded && exists c <- it.children :: x == c.(section := s)))
  }

  /** x is the row, or a member under it when it is expanded. */
  ghost predicate IsOrUnder(it: Item, s: Section, expanded: set<string>, x: Item)
  {
    && it.Row?
    && (x == it || (1 < |it.children| && it.key in expanded && exists c <- it.children :: c.Row? && x == c.(section := s)))
  }

  lemma AnySnoc<T>(s: seq<T>, p: T -> bool)
    requires s != []
    ensures (exists x <- s :: p(x)) <==> (exists x <- s[..|s| - 1] :: p(x)) || p(s[|s| - 1])
  {
    assert s == s[..|s| - 1] + [s[|s| - 1]];
  }

  lemma {:induction false} BodyHas(rows: seq<Item>, s: Section, expanded: set<string>, x: Item)
    requires RowsOk(rows)
    ensures x in Body(rows, s, expanded) <==> exists it <- rows :: IsOrUnder(it, s, expanded, x)
    decreases |rows|
  {
    if rows != [] {
      assert RowsOk(rows[..|rows| - 1]);
      BodyHas(rows[..|rows| - 1], s, expanded, x);
      LastHas(rows, s, expanded, x);
      hide InSection, IsOrUnder, Body, Expandable, RowsOk;
      AnySnoc(rows, (r: Item) => IsOrUnder(r, s, expanded, x));
    }
  }

  lemma LastHas(rows: seq<Item>, s: Section, expanded: set<string>, x: Item)
    requires rows != [] && RowsOk(rows)
    ensures var it := rows[|rows| - 1];
      && it in rows && RowsOk(rows[..|rows| - 1])
      && (x in Body(rows, s, expanded) <==> x in Body(rows[..|rows| - 1], s, expanded) || IsOrUnder(it, s, expanded, x))
  {
    assert rows[|rows| - 1] in rows;
    ChildHas(rows[|rows| - 1].children, s, x);
    hide InSection;
  }

  lemma ChildHas(cs: seq<Item>, s: Section, x: Item)
    requires forall c <- cs :: c.Row?
    ensures x in InSection(cs, s) <==> exists c <- cs :: x == c.(section := s)
  {
    if x in InSection(cs, s) { PartOf(cs, s, x); }
    if c :| c in cs && x == c.(section := s) {
      var i :| 0 <= i < |cs| && cs[i] == c;
      assert InSection(cs, s)[i] == x;
    }
  }

  ghost predicate Peopled(k: Look, base: seq<Item>, s: Section)
    requires forall it <- base :: it.Row?
  {
    exists it <- base :: OnScreen(k, it) && BelongsIn(it, s)
  }

  lemma PeopledBucket(k: Look, base: seq<Item>, s: Section)
    requires forall it <- base :: it.Row?
    ensures Peopled(k, base, s) <==> Bucket(k, base, s) != []
  {
    hide OnScreen, BelongsIn, Bucket;
    BucketHas(k, base, s);
    if it :| it in base && OnScreen(k, it) && BelongsIn(it, s) { assert it.(section := s) in Bucket(k, base, s); }
    if Bucket(k, base, s) != [] { assert Bucket(k, base, s)[0] in Bucket(k, base, s); }
  }

  /** A section has a header if it has a row, and then what is below it unless it
      is collapsed. */
  lemma BlockHas(k: Look, base: seq<Item>, s: Section, collapsed: set<Section>, expanded: set<string>, x: Item)
    requires LookOk(k) && RowsOk(base)
    ensures x in Block(k, base, s, collapsed, expanded) <==>
              && Peopled(k, base, s)
              && (x == Header(s, |Bucket(k, base, s)|) || (s !in collapsed && Below(k, base, s, expanded, x)))
  {
    hide LookOk, Peopled, Below, Body, Bucket;
    PeopledBucket(k, base, s);
    ArrangedOk(k, base, s);
    BodyHas(k.arrange(Bucket(k, base, s)), s, expanded, x);
    BelowRows(k, base, s, expanded, x);
  }

  lemma BelowRows(k: Look, base: seq<Item>, s: Section, expanded: set<string>, x: Item)
    requires RowsOk(base) && RowsOk(Bucket(k, base, s))
    ensures Below(k, base, s, expanded, x) <==>
              exists it <- Bucket(k, base, s) ::
                x == it || (1 < |it.children| && it.key in expanded && exists c <- it.children :: x == c.(section := s))
  {
    hide OnScreen, BelongsIn, Bucket;
    BucketHas(k, base, s);
    if Below(k, base, s, expanded, x) {
      var it :| it in base && OnScreen(k, it) && BelongsIn(it, s) &&
        (x == it.(section := s) || (1 < |it.children| && it.key in expanded && exists c <- it.children :: x == c.(section := s)));
      assert it.(section := s) in Bucket(k, base, s);
    }
  }

  /** So nothing else is in the table. */
  lemma TableHas(k: Look, base: seq<Item>, collapsed: set<Section>, expanded: set<string>, x: Item)
    requires LookOk(k) && RowsOk(base)
    ensures x in Table(k, base, collapsed, expanded) <==>
              exists s: Section ::
                && Peopled(k, base, s)
                && (x == Header(s, |Bucket(k, base, s)|) || (s !in collapsed && Below(k, base, s, expanded, x)))
  {
    hide LookOk, Peopled, Below, Block, Bucket;
    var z: Section, one: Section, two: Section, three: Section := 0, 1, 2, 3;
    BlockHas(k, base, z, collapsed, expanded, x);
    BlockHas(k, base, one, collapsed, expanded, x);
    BlockHas(k, base, two, collapsed, expanded, x);
    BlockHas(k, base, three, collapsed, expanded, x);
    UptoFour(k, base, collapsed, expanded, x);
  }

  lemma UptoFour(k: Look, base: seq<Item>, collapsed: set<Section>, expanded: set<string>, x: Item)
    requires LookOk(k) && RowsOk(base)
    ensures x in Table(k, base, collapsed, expanded) <==>
              || x in Block(k, base, 0, collapsed, expanded) || x in Block(k, base, 1, collapsed, expanded)
              || x in Block(k, base, 2, collapsed, expanded) || x in Block(k, base, 3, collapsed, expanded)
  {
    hide LookOk, Block;
    var u2 := Upto(k, base, 2, collapsed, expanded);
    assert Upto(k, base, 1, collapsed, expanded) == Upto(k, base, 0, collapsed, expanded)
        + Block(k, base, 0, collapsed, expanded);
    assert u2 == Upto(k, base, 1, collapsed, expanded) + Block(k, base, 1, collapsed, expanded);
    assert Upto(k, base, 3, collapsed, expanded) == u2 + Block(k, base, 2, collapsed, expanded);
  }

  /** Every row of the table, at the top of a section or under a domain, says
      what is true of its members. */
  lemma TableRows(k: Look, gs: seq<Group>, prot: set<string>, collapsed: set<Section>, expanded: set<string>)
    requires LookOk(k) && DistinctKeys(gs)
    ensures RowsOk(Base(k, gs, prot)) && TopRows(Base(k, gs, prot))
    ensures forall it <- Table(k, Base(k, gs, prot), collapsed, expanded) :: it.Row? ==> RowOf(gs, prot, it)
  {
    BaseRows(k, gs, prot);
    BaseShapes(gs, prot, Base(k, gs, prot));
    UptoRows(k, gs, prot, 4, collapsed, expanded);
  }

  lemma BaseShapes(gs: seq<Group>, prot: set<string>, base: seq<Item>)
    requires forall it <- base :: TopRow(gs, prot, it)
    ensures RowsOk(base) && TopRows(base)
  {
  }

  lemma {:induction false} UptoRows(k: Look, gs: seq<Group>, prot: set<string>, n: nat, collapsed: set<Section>,
      expanded: set<string>)
    requires LookOk(k) && n <= 4 && RowsOk(Base(k, gs, prot)) && forall it <- Base(k, gs, prot) :: TopRow(gs, prot, it)
    ensures forall it <- Upto(k, Base(k, gs, prot), n, collapsed, expanded) :: it.Row? ==> RowOf(gs, prot, it)
  {
    hide LookOk, RowOf, Base, Body, Bucket;
    if 0 < n {
      UptoRows(k, gs, prot, n - 1, collapsed, expanded);
      ArrangedOk(k, Base(k, gs, prot), n - 1);
      BucketRows(k, gs, prot, Base(k, gs, prot), n - 1);
      BodyRows(gs, prot, k.arrange(Bucket(k, Base(k, gs, prot), n - 1)), n - 1, expanded);
    }
  }

  lemma {:induction false} BucketRows(k: Look, gs: seq<Group>, prot: set<string>, base: seq<Item>, s: Section)
    requires forall it <- base :: it.Row? && TopRow(gs, prot, it)
    ensures forall it <- Bucket(k, base, s) :: TopRow(gs, prot, it)
    decreases |base|
  {
    if base != [] {
      BucketRows(k, gs, prot, base[..|base| - 1], s);
      SectionFree(gs, prot, base[|base| - 1], s);
    }
  }

  /** What a row says of its members does not depend on where it is shown. */
  lemma SectionFree(gs: seq<Group>, prot: set<string>, it: Item, s: Section)
    requires it.Row?
    ensures RowOf(gs, prot, it) ==> RowOf(gs, prot, it.(section := s))
    ensures TopRow(gs, prot, it) ==> TopRow(gs, prot, it.(section := s))
  {
  }

  lemma PartOf(rows: seq<Item>, s: Section, x: Item)
    requires (forall c <- rows :: c.Row?) && x in InSection(rows, s)
    ensures exists c :: c in rows && x == c.(section := s)
  {
    var i :| 0 <= i < |rows| && InSection(rows, s)[i] == x;
    assert rows[i] in rows;
  }

  lemma {:induction false} BodyRows(gs: seq<Group>, prot: set<string>, rows: seq<Item>, s: Section, expanded: set<string>)
    requires RowsOk(rows) && forall it <- rows :: TopRow(gs, prot, it)
    ensures forall it <- Body(rows, s, expanded) :: it.Row? ==> RowOf(gs, prot, it)
    decreases |rows|
  {
    if rows != [] {
      var front, it := rows[..|rows| - 1], rows[|rows| - 1];
      BodyRows(gs, prot, front, s, expanded);
      assert TopRow(gs, prot, it) by { assert it in rows; }
      forall x | x in Body(rows, s, expanded) && x.Row? ensures RowOf(gs, prot, x) {
        if x !in Body(front, s, expanded) && x != it {
          PartOf(it.children, s, x);
          var c :| c in it.children && x == c.(section := s);
          SectionFree(gs, prot, c, s);
        }
      }
    }
  }
}
