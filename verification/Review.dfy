/** The review screen (internal/tui/update.go, internal/tui/model.go): what its
    keys do to selections, protection, the cursor and the scroll window. */
module Review {
  import opened ReviewRows

  datatype Selection = Selection(unsubscribe: bool, deleteMatched: bool, deleteAll: bool, includeKept: bool)

  const NOTHING := Selection(false, false, false, false)

  predicate Any(s: Selection) {
    s.unsubscribe || s.deleteMatched || s.deleteAll
  }

  predicate Deletes(s: Selection) {
    s.deleteMatched || s.deleteAll
  }

  datatype Field = Unsub | Matched | All | Kept

  /** What a key does to one sender's selection. */
  datatype Change = Flip(field: Field) | Put(field: Field, value: bool) | Clear

  function Get(s: Selection, f: Field): bool {
    match f
    case Unsub => s.unsubscribe
    case Matched => s.deleteMatched
    case All => s.deleteAll
    case Kept => s.includeKept
  }

  function Set(s: Selection, f: Field, v: bool): Selection {
    match f
    case Unsub => s.(unsubscribe := v)
    case Matched => s.(deleteMatched := v)
    case All => s.(deleteAll := v)
    case Kept => s.(includeKept := v)
  }

  function Changed(s: Selection, c: Change): Selection {
    match c
    case Flip(f) => Set(s, f, !Get(s, f))
    case Put(f, v) => Set(s, f, v)
    case Clear => NOTHING
  }

  type Selections = map<string, Selection>

  function Of(sel: Selections, k: string): Selection {
    if k in sel then sel[k] else NOTHING
  }

  /** A selection that asks for nothing is not stored. */
  function ChangeOne(sel: Selections, k: string, c: Change): Selections {
    if Any(Changed(Of(sel, k), c)) then sel[k := Changed(Of(sel, k), c)] else sel - {k}
  }

  function ChangeAll(sel: Selections, keys: seq<string>, c: Change): Selections {
    if keys == [] then sel else ChangeOne(ChangeAll(sel, keys[..|keys| - 1], c), keys[|keys| - 1], c)
  }

  /** What a key press changes: of each sender named the field it is for, and of
      no other sender anything. */
  lemma {:induction false} ChangeAllAt(sel: Selections, keys: seq<string>, c: Change, k: string)
    requires Distinct(keys)
    ensures var after := ChangeAll(sel, keys, c);
      if k in keys then
        (k in after <==> Any(Changed(Of(sel, k), c))) && (k in after ==> after[k] == Changed(Of(sel, k), c))
      else (k in after <==> k in sel) && (k in after ==> after[k] == sel[k])
    decreases |keys|
  {
    hide Any, Changed;
    if keys != [] {
      var front, last := keys[..|keys| - 1], keys[|keys| - 1];
      assert keys == front + [last];
      if k == last { assert k !in front; }
      ChangeAllAt(sel, front, c, k);
    }
  }

  /** The escalations that have to be confirmed once. */
  ghost predicate Acked(sel: Selections, ackAll: bool, ackKept: bool) {
    forall k <- sel :: (sel[k].deleteAll ==> ackAll) && (sel[k].includeKept ==> ackKept)
  }

  ghost predicate SelectionsOk(sel: Selections, keys: set<string>, prot: set<string>, ackAll: bool, ackKept: bool) {
    (forall k <- sel :: k in keys && k !in prot && Any(sel[k])) && Acked(sel, ackAll, ackKept)
  }

  predicate Permitted(c: Change, ackAll: bool, ackKept: bool) {
    match c
    case Flip(f) => (f == All ==> ackAll) && (f == Kept ==> ackKept)
    case Put(f, v) => (f == All && v ==> ackAll) && (f == Kept && v ==> ackKept)
    case Clear => true
  }

  lemma {:induction false} ChangeAllOk(sel: Selections, members: seq<string>, c: Change, keys: set<string>,
                                       prot: set<string>, ackAll: bool, ackKept: bool)
    requires SelectionsOk(sel, keys, prot, ackAll, ackKept) && Permitted(c, ackAll, ackKept)
    requires forall m <- members :: m in keys && m !in prot
    ensures SelectionsOk(ChangeAll(sel, members, c), keys, prot, ackAll, ackKept)
    decreases |members|
  {
    if members != [] {
      ChangeAllOk(sel, members[..|members| - 1], c, keys, prot, ackAll, ackKept);
    }
  }

  /** A checkbox over several senders: none of them, some of them, all of them. */
  datatype Tri = No | Some | Yes

  function TriOf(got: nat, total: nat): Tri {
    if got == 0 then No else if got == total then Yes else Some
  }

  function CountOf(sel: Selections, keys: seq<string>, f: Field): (n: nat)
    ensures n <= |keys|
  {
    if keys == [] then 0
    else CountOf(sel, keys[..|keys| - 1], f) + if Get(Of(sel, keys[|keys| - 1]), f) then 1 else 0
  }

  /** The checkbox tells the truth of every sender behind the row. */
  lemma {:induction false} TriMeaning(sel: Selections, keys: seq<string>, f: Field)
    requires keys != []
    ensures TriOf(CountOf(sel, keys, f), |keys|) == Yes <==> forall k <- keys :: Get(Of(sel, k), f)
    ensures TriOf(CountOf(sel, keys, f), |keys|) == No <==> forall k <- keys :: !Get(Of(sel, k), f)
    decreases |keys|
  {
    var front, last := keys[..|keys| - 1], keys[|keys| - 1];
    assert forall k :: k in keys <==> k in front || k == last;
    if front != [] { TriMeaning(sel, front, f); }
  }

  /** What a row of the table shows besides its text. */
  datatype Cells = HeaderCells | Locked | Boxes(unsub: Tri, matched: Tri, all: Tri, kept: Tri)

  function CellsOf(sel: Selections, it: Item): Cells {
    if it.Header? then HeaderCells
    else if it.protected then Locked
    else
      var n := |it.members|;
      Boxes(TriOf(CountOf(sel, it.members, Unsub), n), TriOf(CountOf(sel, it.members, Matched), n),
            TriOf(CountOf(sel, it.members, All), n), TriOf(CountOf(sel, it.members, Kept), n))
  }

  function AllCells(sel: Selections, items: seq<Item>): seq<Cells> {
    seq(|items|, i requires 0 <= i < |items| => CellsOf(sel, items[i]))
  }

  /** The cursor is on the table and the scroll window is around it and within
      the table. */
  ghost predicate WindowOk(n: nat, cursor: int, offset: int, viewH: int) {
    var h := if viewH < 1 then 1 else viewH;
    && (if n == 0 then cursor == 0 else 0 <= cursor < n)
    && 0 <= offset <= cursor < offset + h
    && offset <= (if n <= h then 0 else n - h)
  }

  /** How many rows of the table fit on a screen of that height. */
  function Rows(height: int, filtering: bool, detail: bool): int {
    var free := height - REVIEW_CHROME - (if filtering then 1 else 0) - (if detail then DETAIL_ROW + 2 else 0);
    if free < 3 then 3 else free
  }

  function Gap(a: int, b: int): nat {
    if a < b then b - a else a - b
  }

  /** Of the offsets that show the cursor, the one nearest to where the window was. */
  ghost predicate NearestWindow(n: nat, cursor: int, was: int, offset: int, viewH: int) {
    && WindowOk(n, cursor, offset, viewH)
    && forall o :: WindowOk(n, cursor, o, viewH) ==> Gap(offset, was) <= Gap(o, was)
  }

  /** The nearest place to i in a table of n rows. */
  function Clamp(i: int, n: nat): int {
    if i < 0 || n == 0 then 0 else if i > n - 1 then n - 1 else i
  }

  /** The first row from i on in the given direction, or -1. */
  function NextRow(items: seq<Item>, i: int, dir: int): int
    requires dir == 1 || dir == -1
    decreases if dir == 1 then |items| - i else i + 1
  {
    if i < 0 || i >= |items| then -1 else if items[i].Row? then i else NextRow(items, i + dir, dir)
  }

  lemma {:induction false} NextRowMeaning(items: seq<Item>, i: int, dir: int)
    requires dir == 1 || dir == -1
    ensures var r := NextRow(items, i, dir);
      if r == -1 then forall x :: 0 <= x < |items| && 0 <= i < |items| && 0 <= dir * (x - i) ==> items[x].Header?
      else 0 <= r < |items| && items[r].Row? && 0 <= dir * (r - i)
           && forall x :: 0 <= x < |items| && 0 <= dir * (x - i) && dir * (x - r) < 0 ==> items[x].Header?
    decreases if dir == 1 then |items| - i else i + 1
  {
    if 0 <= i < |items| && items[i].Header? { NextRowMeaning(items, i + dir, dir); }
  }

  /** Off a header: to the next row in the given direction, else in the other. */
  function Skipped(items: seq<Item>, at: int, dir: int): int
    requires dir == 1 || dir == -1
  {
    var a, b := NextRow(items, at, dir), NextRow(items, at, -dir);
    if a != -1 then a else if b != -1 then b else at
  }

  function FindRow(items: seq<Item>, key: string, i: nat): int
    decreases |items| - i
  {
    if i >= |items| then -1 else if items[i].Row? && items[i].key == key then i else FindRow(items, key, i + 1)
  }

  function FindHeader(items: seq<Item>, section: int, i: nat): int
    decreases |items| - i
  {
    if i >= |items| then -1 else if items[i].Header? && items[i].of as int == section then i
        else FindHeader(items, section, i + 1)
  }

  /** Where the cursor goes when the table is drawn anew and it was on a row
      with that key, or on the header of that section. */
  function Restored(items: seq<Item>, key: string, section: int): int {
    var a := if key == "" then -1 else FindRow(items, key, 0);
    var b := if section < 0 then -1 else FindHeader(items, section, 0);
    if a != -1 then a else if b != -1 then b else Skipped(items, 0, 1)
  }

  lemma {:induction false} FindRowMeaning(items: seq<Item>, key: string, i: nat)
    ensures var r := FindRow(items, key, i);
      if r == -1 then forall x :: i <= x < |items| && items[x].Row? ==> items[x].key != key
      else i <= r < |items| && items[r].Row? && items[r].key == key
    decreases |items| - i
  {
    if i < |items| { FindRowMeaning(items, key, i + 1); }
  }

  lemma {:induction false} FindHeaderMeaning(items: seq<Item>, section: int, i: nat)
    ensures var r := FindHeader(items, section, i);
      if r == -1 then forall x :: i <= x < |items| && items[x].Header? ==> items[x].of as int != section
      else i <= r < |items| && items[r].Header? && items[r].of as int == section
    decreases |items| - i
  {
    if i < |items| { FindHeaderMeaning(items, section, i + 1); }
  }

  ghost predicate ShowsRow(items: seq<Item>, key: string) {
    key != "" && exists it :: it in items && it.Row? && it.key == key
  }

  ghost predicate ShowsHeader(items: seq<Item>, section: int) {
    0 <= section && exists it :: it in items && it.Header? && it.of as int == section
  }

  /** The cursor comes back to its row if that is still in the table, else to
      its section's header if that is, else to the first row there is. */
  lemma RestoredMeaning(items: seq<Item>, key: string, section: int)
    ensures var at := Restored(items, key, section);
      && (if items == [] then at == 0 else 0 <= at < |items|)
      && (ShowsRow(items, key) ==> items[at].Row? && items[at].key == key)
      && (!ShowsRow(items, key) && ShowsHeader(items, section) ==> items[at].Header? && items[at].of as int == section)
      && (!ShowsRow(items, key) && !ShowsHeader(items, section) && items != [] ==>
            forall x :: 0 <= x < |items| && (x < at || items[at].Header?) ==> items[x].Header?)
  {
    FindRowMeaning(items, key, 0);
    FindHeaderMeaning(items, section, 0);
    NextRowMeaning(items, 0, 1);
    NextRowMeaning(items, 0, -1);
    if ShowsHeader(items, section) {
      var it :| it in items && it.Header? && it.of as int == section;
      var x :| 0 <= x < |items| && items[x] == it;
    }
  }

  /** So a table drawn anew has its cursor on the row with the key of the one it
      was on, else on the header of the section whose header it was on, else on
      the first row there is. */
  ghost predicate ComesBack(was: seq<Item>, at: int, items: seq<Item>, to: int) {
    && (if items == [] then to == 0 else 0 <= to < |items|)
    && if 0 <= at < |was| && was[at].Row? && ShowsRow(items, was[at].key) then items[to].Row? && items[to].key == was[at].key
       else if 0 <= at < |was| && was[at].Header? && ShowsHeader(items, was[at].of as int) then
         items[to].Header? && items[to].of == was[at].of
       else items != [] ==> forall x :: 0 <= x < |items| && (x < to || items[to].Header?) ==> items[x].Header?
  }

  lemma RestoredComesBack(was: seq<Item>, at: int, items: seq<Item>, key: string, section: int)
    requires 0 <= at < |was| && was[at].Row? ==> key == was[at].key && section == -1
    requires 0 <= at < |was| && was[at].Header? ==> key == "" && section == was[at].of as int
    requires !(0 <= at < |was|) ==> key == "" && section == -1
    ensures ComesBack(was, at, items, Restored(items, key, section))
  {
    RestoredMeaning(items, key, section);
    hide Restored;
  }

  /** One sender's decision, as the plan records it. */
  datatype Decision = Decision(key: string, sel: Selection)

  const REVIEW_CHROME := 5
  const DETAIL_ROW := 8

  ghost function SetOf(s: seq<string>): set<string> {
    set k | k in s
  }

  ghost predicate Orderly(gs: seq<Group>, arrange: nat -> (seq<Item> -> seq<Item>), byCount: seq<Item> -> seq<Item>) {
    && DistinctKeys(gs)
    && (forall n, s :: multiset(arrange(n)(s)) == multiset(s))
    && (forall s :: multiset(byCount(s)) == multiset(s))
  }

  /** The senders a bulk key acts on: those of the unprotected rows at the top
      level of a section. */
  function BulkKeys(items: seq<Item>, s: Section): seq<string> {
    if items == [] then []
    else
      var it := items[|items| - 1];
      BulkKeys(items[..|items| - 1], s)
      + if it.Row? && !it.child && !it.protected && it.section == s then it.members else []
  }

  lemma {:induction false} BulkKeysHas(items: seq<Item>, s: Section)
    ensures forall k :: k in BulkKeys(items, s) <==>
              exists it :: it in items && it.Row? && !it.child && !it.protected && it.section == s && k in it.members
    decreases |items|
  {
    if items != [] {
      var front, last := items[..|items| - 1], items[|items| - 1];
      BulkKeysHas(front, s);
      assert forall it :: it in items <==> it in front || it == last;
    }
  }

  predicate AllHave(sel: Selections, keys: seq<string>, f: Field) {
    keys != [] && forall k <- keys :: Get(Of(sel, k), f)
  }

  /** A key press: its name, the text it types, and what it is bound to. */
  datatype Press = Press(name: string, typed: string, action: Action)

  datatype Action =
    | Unbound | Quit | Write | Up | Down | PageUp | PageDown | Top | Bottom | Unsubscribe | DeleteMatched | DeleteAll
    | IncludeKept | Protect | AllUnsub | AllDelete | ClearAll | Filter | Sort | GroupBy | Detail | ShowDecided | Cancel

  /** What the user has decided so far, and what is being asked. */
  datatype Mind = Mind(
    sel: Selections, prot: set<string>, newly: seq<string>, ackAll: bool, ackKept: bool,
    confirming: bool, pendingField: Field, pendingKeys: seq<string>, pendingValue: bool,
    confirmQuit: bool, written: bool, left: bool)

  /** How the table is to be shown. */
  datatype Display = Display(
    domainMode: bool, showDecided: bool, sorting: nat, filter: string, draft: string, saved: string, filtering: bool,
    detail: bool, expanded: set<string>, collapsed: set<Section>)

  predicate RowAt(items: seq<Item>, at: int) {
    0 <= at < |items| && items[at].Row?
  }

  predicate OpenAt(items: seq<Item>, at: int) {
    RowAt(items, at) && !items[at].protected
  }

  /** The senders a key on the cursor's row may act on. */
  function Free(items: seq<Item>, at: int): seq<string> {
    if OpenAt(items, at) then items[at].members else []
  }

  function Gone(m: Mind, write: bool): Mind {
    m.(written := write, confirmQuit := false, left := true)
  }

  /** An escalation on a row: asked about first, until it was confirmed once. */
  function Escalated(m: Mind, f: Field, keys: seq<string>): Mind {
    if (if f == Kept then m.ackKept else m.ackAll) then m.(sel := ChangeAll(m.sel, keys, Flip(f)))
    else m.(confirming := true, pendingField := f, pendingKeys := keys, pendingValue := !AllHave(m.sel, keys, f))
  }

  function Marked(m: Mind, keys: seq<string>, c: Change): Mind {
    m.(sel := ChangeAll(m.sel, keys, c))
  }

  function Bulked(m: Mind, items: seq<Item>, at: int, c: Change): Mind {
    if 0 <= at < |items| then m.(sel := ChangeAll(m.sel, BulkKeys(items, SectionAt(items[at])), c)) else m
  }

  predicate AnyDeletes(sel: Selections, keys: seq<string>) {
    exists k :: k in keys && Deletes(Of(sel, k))
  }

  /** What a key on the table does to the decisions. */
  ghost function Acting(m: Mind, action: Action, items: seq<Item>, at: int): Mind {
    var keys := Free(items, at);
    match action
    case Quit => if |m.sel| > 0 then m.(confirmQuit := true) else Gone(m, false)
    case Write => Gone(m, true)
    case Unsubscribe => m.(sel := ChangeAll(m.sel, keys, Flip(Unsub)))
    case DeleteMatched => m.(sel := ChangeAll(m.sel, keys, Flip(Matched)))
    case DeleteAll => if OpenAt(items, at) then Escalated(m, All, keys) else m
    case IncludeKept => if AnyDeletes(m.sel, keys) then Escalated(m, Kept, keys) else m
    case Protect => m.(prot := m.prot + SetOf(keys), newly := m.newly + keys, sel := m.sel - SetOf(keys))
    case AllUnsub => Bulked(m, items, at, Put(Unsub, true))
    case AllDelete => Bulked(m, items, at, Put(Matched, true))
    case ClearAll => Bulked(m, items, at, Clear)
    case _ => m
  }

  predicate SaysYes(press: Press) {
    press.name in {"y", "Y"}
  }

  predicate SaysNo(press: Press) {
    press.name in {"n", "N", "esc"}
  }

  /** What an answer to the open question does. */
  function Answered(m: Mind, press: Press): Mind {
    var closed := m.(confirming := false, pendingKeys := []);
    if SaysYes(press) then
      closed.(sel := ChangeAll(m.sel, m.pendingKeys, Put(m.pendingField, m.pendingValue)),
              ackAll := m.ackAll || m.pendingField != Kept, ackKept := m.ackKept || m.pendingField == Kept)
    else if SaysNo(press) then closed
    else m
  }

  /** What a key press makes of the decisions, given the table and the cursor. */
  ghost function Decided(m: Mind, filtering: bool, press: Press, items: seq<Item>, at: int): Mind {
    if filtering then m
    else if m.confirming then Answered(m, press)
    else if m.confirmQuit then
      if press.name in {"y", "Y", "ctrl+c"} then Gone(m, false)
      else if press.name in {"n", "N", "esc", "q"} then m.(confirmQuit := false) else m
    else Acting(m, press.action, items, at)
  }

  /** The senders a key press is about. */
  function About(m: Mind, filtering: bool, press: Press, items: seq<Item>, at: int): seq<string> {
    if filtering then []
    else if m.confirming then m.pendingKeys
    else if InBulk(press.action) then
      if 0 <= at < |items| then BulkKeys(items, SectionAt(items[at])) else []
    else Free(items, at)
  }

  lemma {:induction false} ChangeAllElse(sel: Selections, keys: seq<string>, c: Change, k: string)
    requires k !in keys
    ensures var after := ChangeAll(sel, keys, c); (k in after <==> k in sel) && (k in after ==> after[k] == sel[k])
  {
    if keys != [] { ChangeAllElse(sel, keys[..|keys| - 1], c, k); }
  }

  ghost predicate SameFor(before: Mind, after: Mind, k: string) {
    && (k in after.sel <==> k in before.sel) && (k in after.sel ==> after.sel[k] == before.sel[k])
    && (k in after.prot <==> k in before.prot) && before.prot <= after.prot
  }

  lemma BulkedElse(m: Mind, items: seq<Item>, at: int, c: Change, k: string)
    requires k !in if 0 <= at < |items| then BulkKeys(items, SectionAt(items[at])) else []
    ensures SameFor(m, Bulked(m, items, at, c), k)
  {
    if 0 <= at < |items| { ChangeAllElse(m.sel, BulkKeys(items, SectionAt(items[at])), c, k); }
  }

  lemma EscalatedElse(m: Mind, f: Field, keys: seq<string>, k: string)
    requires k !in keys
    ensures SameFor(m, Escalated(m, f, keys), k)
  {
    ChangeAllElse(m.sel, keys, Flip(f), k);
  }

  function BulkChange(action: Action): Change {
    if action.AllUnsub? then Put(Unsub, true) else if action.AllDelete? then Put(Matched, true) else Clear
  }

  predicate Marks(action: Action) {
    action.Unsubscribe? || action.DeleteMatched? || action.AllUnsub? || action.AllDelete? || action.ClearAll?
  }

  lemma ActingMarks(m: Mind, action: Action, items: seq<Item>, at: int)
    requires Marks(action)
    ensures action.Unsubscribe? ==> Acting(m, action, items, at) == Marked(m, Free(items, at), Flip(Unsub))
    ensures action.DeleteMatched? ==> Acting(m, action, items, at) == Marked(m, Free(items, at), Flip(Matched))
    ensures InBulk(action) ==> Acting(m, action, items, at) == Bulked(m, items, at, BulkChange(action))
  {
  }

  predicate InBulk(action: Action) {
    action.AllUnsub? || action.AllDelete? || action.ClearAll?
  }

  lemma BulkKeyElse(m: Mind, action: Action, items: seq<Item>, at: int, k: string)
    requires InBulk(action) && k !in if 0 <= at < |items| then BulkKeys(items, SectionAt(items[at])) else []
    ensures SameFor(m, Acting(m, action, items, at), k)
  {
    hide BulkKeys, SectionAt, SameFor, Bulked;
    BulkedElse(m, items, at, BulkChange(action), k);
  }

  lemma RowKeyElse(m: Mind, action: Action, items: seq<Item>, at: int, k: string)
    requires !InBulk(action) && k !in Free(items, at)
    ensures SameFor(m, Acting(m, action, items, at), k)
  {
    hide ChangeAll, AnyDeletes, OpenAt, Free, Escalated, Bulked;
    var keys := Free(items, at);
    if action.DeleteAll? || action.IncludeKept? {
      EscalatedElse(m, if action.DeleteAll? then All else Kept, keys, k);
    } else if action.Unsubscribe? || action.DeleteMatched? {
      ChangeAllElse(m.sel, keys, Flip(if action.Unsubscribe? then Unsub else Matched), k);
    }
  }

  /** A key press changes nothing about any other sender, and unprotects nobody. */
  lemma OthersUntouched(m: Mind, filtering: bool, press: Press, items: seq<Item>, at: int, k: string)
    requires k !in About(m, filtering, press, items, at)
    ensures SameFor(m, Decided(m, filtering, press, items, at), k)
  {
    hide ChangeAll, BulkKeys, Acting, Free, SaysYes, SaysNo;
    if !filtering && m.confirming {
      ChangeAllElse(m.sel, m.pendingKeys, Put(m.pendingField, m.pendingValue), k);
    } else if !filtering && InBulk(press.action) {
      BulkKeyElse(m, press.action, items, at, k);
    } else if !filtering {
      RowKeyElse(m, press.action, items, at, k);
    }
  }

  /** Pressing a toggle twice restores a sender's selection unless the toggled
      field was the only thing asked for and include-kept went with it: a
      selection that asks for nothing is forgotten as a whole. */
  lemma ToggleTwice(sel: Selections, k: string, f: Field)
    requires k in sel ==> Any(sel[k])
    ensures ChangeOne(ChangeOne(sel, k, Flip(f)), k, Flip(f)) == sel <==>
            !(k in sel && sel[k].includeKept && f != Kept && !Any(Set(sel[k], f, false)))
  {
  }

  /** A key press with what it met. */
  datatype Moment = Moment(filtering: bool, press: Press, items: seq<Item>, at: int)

  ghost function DecidedOver(m: Mind, steps: seq<Moment>): Mind {
    if steps == [] then m
    else
      var s := steps[|steps| - 1];
      Decided(DecidedOver(m, steps[..|steps| - 1]), s.filtering, s.press, s.items, s.at)
  }

  ghost predicate SameAcks(before: Mind, after: Mind) {
    && after.ackAll == before.ackAll && after.ackKept == before.ackKept
    && (after.confirming ==> after.pendingField == All || after.pendingField == Kept)
  }

  lemma EscalatedAcks(m: Mind, f: Field, keys: seq<string>)
    requires !m.confirming && (f == All || f == Kept)
    ensures SameAcks(m, Escalated(m, f, keys))
  {
  }

  lemma ActingAcks(m: Mind, action: Action, items: seq<Item>, at: int)
    requires !m.confirming
    ensures SameAcks(m, Acting(m, action, items, at))
  {
    hide ChangeAll, BulkKeys, AnyDeletes, Free, OpenAt, SetOf, Escalated, SectionAt;
    EscalatedAcks(m, All, Free(items, at));
    EscalatedAcks(m, Kept, Free(items, at));
  }

  function AckOf(m: Mind, f: Field): bool {
    if f == Kept then m.ackKept else m.ackAll
  }

  ghost predicate AsksRightly(m: Mind) {
    m.confirming ==> m.pendingField == All || m.pendingField == Kept
  }

  /** The key press answers the open question about f with yes. */
  ghost predicate YesTo(m: Mind, s: Moment, f: Field) {
    !s.filtering && m.confirming && m.pendingField == f && SaysYes(s.press)
  }

  /** One key press acknowledges an escalation only as the yes to its question. */
  lemma AckedByYes(m: Mind, s: Moment, f: Field)
    requires AsksRightly(m) && (f == All || f == Kept)
    ensures var after := Decided(m, s.filtering, s.press, s.items, s.at);
      AsksRightly(after) && (AckOf(after, f) <==> AckOf(m, f) || YesTo(m, s, f))
  {
    hide ChangeAll, BulkKeys, Acting, SaysYes, SaysNo;
    if !m.confirming { ActingAcks(m, s.press.action, s.items, s.at); }
  }

  /** The i-th of the key presses answered a question about f with yes. */
  ghost predicate SaidYes(m: Mind, steps: seq<Moment>, i: nat, f: Field) {
    i < |steps| && YesTo(DecidedOver(m, steps[..i]), steps[i], f)
  }

  ghost predicate SomeYes(m: Mind, steps: seq<Moment>, f: Field) {
    exists i :: SaidYes(m, steps, i, f)
  }

  /** A yes among some key presses is the last of them or among those before. */
  lemma YesBefore(m: Mind, steps: seq<Moment>, f: Field)
    requires steps != []
    ensures var n, front := |steps| - 1, steps[..|steps| - 1];
      SomeYes(m, steps, f) <==> YesTo(DecidedOver(m, front), steps[n], f) || SomeYes(m, front, f)
  {
    hide YesTo, DecidedOver;
    var n, front := |steps| - 1, steps[..|steps| - 1];
    forall i: nat | i < n ensures SaidYes(m, steps, i, f) <==> SaidYes(m, front, i, f) {
      assert steps[..i] == front[..i];
    }
    if i: nat :| SaidYes(m, steps, i, f) {
      assert i < n ==> SaidYes(m, front, i, f);
    }
    if YesTo(DecidedOver(m, front), steps[n], f) { assert SaidYes(m, steps, n, f); }
    if i: nat :| SaidYes(m, front, i, f) { assert SaidYes(m, steps, i, f); }
  }

  lemma {:induction false} EscalationAnswered(m: Mind, steps: seq<Moment>, f: Field)
    requires !AckOf(m, f) && !m.confirming && (f == All || f == Kept)
    ensures AsksRightly(DecidedOver(m, steps)) && (AckOf(DecidedOver(m, steps), f) <==> SomeYes(m, steps, f))
    decreases |steps|
  {
    if steps != [] {
      var n := |steps| - 1;
      var before := DecidedOver(m, steps[..n]);
      assert DecidedOver(m, steps) == Decided(before, steps[n].filtering, steps[n].press, steps[n].items, steps[n].at);
      hide Decided, DecidedOver, YesTo, SomeYes, AsksRightly, AckOf;
      EscalationAnswered(m, steps[..n], f);
      AckedByYes(before, steps[n], f);
      YesBefore(m, steps, f);
    }
  }

  /** Over any run of key presses an escalation is acknowledged exactly if one
      of them said yes to a question about it. With Acked, that nothing is
      selected for it otherwise, no mail is up for delete-all unasked. */
  lemma EscalationsWereAnswered(m: Mind, steps: seq<Moment>)
    requires !m.ackAll && !m.ackKept && !m.confirming
    ensures DecidedOver(m, steps).ackAll <==> SomeYes(m, steps, All)
    ensures DecidedOver(m, steps).ackKept <==> SomeYes(m, steps, Kept)
  {
    hide DecidedOver, SomeYes, AsksRightly;
    EscalationAnswered(m, steps, All);
    EscalationAnswered(m, steps, Kept);
  }

  function Flipped<T(==)>(xs: set<T>, x: T): set<T> {
    if x in xs then xs - {x} else xs + {x}
  }

  function Entered(v: Display, items: seq<Item>, at: int): Display {
    if 0 <= at < |items| && items[at].Header? then v.(collapsed := Flipped(v.collapsed, items[at].of))
    else if RowAt(items, at) && Expandable(items[at]) then v.(expanded := Flipped(v.expanded, items[at].key))
    else v.(detail := !v.detail)
  }

  function Typed(v: Display, press: Press): Display {
    match press.name
    case "esc" => v.(filtering := false, draft := v.saved, filter := v.saved)
    case "enter" => v.(filtering := false, filter := v.draft)
    case _ =>
      var d := if press.name == "backspace" then (if v.draft == "" then "" else v.draft[..|v.draft| - 1])
               else if press.name == "ctrl+u" then "" else v.draft + press.typed;
      v.(draft := d, filter := d)
  }

  /** What a key on the table does to the display. */
  function Adjusted(v: Display, action: Action, items: seq<Item>, at: int): Display {
    match action
    case Filter => v.(filtering := true, draft := v.filter, saved := v.filter)
    case Sort => v.(sorting := (v.sorting + 1) % 4)
    case GroupBy => v.(domainMode := !v.domainMode, expanded := {})
    case ShowDecided => v.(showDecided := !v.showDecided)
    case Detail => Entered(v, items, at)
    case Cancel => v.(detail := false)
    case _ => v
  }

  /** What a key press makes of the display; while a question is open, nothing. */
  function Displayed(v: Display, asked: bool, press: Press, items: seq<Item>, at: int): Display {
    if v.filtering then Typed(v, press) else if asked then v else Adjusted(v, press.action, items, at)
  }

  predicate Decides(action: Action) {
    match action
    case Quit => true
    case Write => true
    case Unsubscribe => true
    case DeleteMatched => true
    case DeleteAll => true
    case IncludeKept => true
    case Protect => true
    case AllUnsub => true
    case AllDelete => true
    case ClearAll => true
    case _ => false
  }

  /** A key does one of three things: it moves, it decides, or it changes the display. */
  lemma Kinds(m: Mind, v: Display, action: Action, items: seq<Item>, at: int)
    ensures !Decides(action) ==> Acting(m, action, items, at) == m
    ensures Decides(action) || Steers(action) ==> Adjusted(v, action, items, at) == v
    ensures !(Decides(action) && Steers(action))
  {
  }

  /** Where a movement key takes the cursor. */
  function Target(items: seq<Item>, at: int, viewH: int, action: Action): int {
    var page := if viewH < 1 then 1 else viewH;
    match action
    case Up => Clamp(at - 1, |items|)
    case Down => Clamp(at + 1, |items|)
    case PageUp => Clamp(at - page, |items|)
    case PageDown => Clamp(at + page, |items|)
    case Top => Skipped(items, 0, 1)
    case Bottom => Skipped(items, Clamp(|items| - 1, |items|), -1)
    case _ => at
  }

  predicate Steers(action: Action) {
    action.Up? || action.Down? || action.PageUp? || action.PageDown? || action.Top? || action.Bottom? || action.Unbound?
  }

  /** The selection of k has gone through f: it is stored if it asks for
      something, and forgotten if not. */
  ghost predicate Turns(sel: Selections, after: Selections, k: string, f: Selection -> Selection) {
    var s := f(if k in sel then sel[k] else Selection(false, false, false, false));
    if s.unsubscribe || s.deleteMatched || s.deleteAll then k in after && after[k] == s else k !in after
  }

  ghost predicate Keeps(sel: Selections, after: Selections, k: string) {
    (k in after <==> k in sel) && (k in sel ==> after[k] == sel[k])
  }

  /** So have the selections of these senders, and of no others. */
  ghost predicate Each(sel: Selections, after: Selections, which: string -> bool, f: Selection -> Selection) {
    forall k :: if which(k) then Turns(sel, after, k, f) else Keeps(sel, after, k)
  }

  /** A sender of the row at the cursor, if that is an unprotected one. */
  ghost predicate OfRow(items: seq<Item>, at: int, k: string) {
    0 <= at < |items| && items[at].Row? && !items[at].protected && k in items[at].members
  }

  /** A sender of an unprotected top-level row of the section the cursor is in. */
  ghost predicate OfSection(items: seq<Item>, at: int, k: string) {
    && 0 <= at < |items|
    && exists it <- items ::
         && it.Row? && !it.child && !it.protected && k in it.members
         && it.section == (if items[at].Header? then items[at].of else items[at].section)
  }

  /** Asked whether to set a field for the senders of the row, to what not all of them have. */
  ghost predicate Asked(m: Mind, after: Mind, f: Field, items: seq<Item>, at: int, had: Selection -> bool) {
    && 0 <= at < |items| && items[at].Row?
    && after == m.(confirming := true, pendingField := f, pendingKeys := items[at].members, pendingValue := after.pendingValue)
    && (!after.pendingValue <==> items[at].members != [] && forall k <- items[at].members :: k in m.sel && had(m.sel[k]))
  }

  /** What each key means, while nothing else is going on: which senders it is
      for, and which one of the four things it changes for them. */
  ghost predicate Meant(m: Mind, after: Mind, action: Action, items: seq<Item>, at: int) {
    match action
    case Unsubscribe => after == m.(sel := after.sel)
      && Each(m.sel, after.sel, k => OfRow(items, at, k), (s: Selection) => s.(unsubscribe := !s.unsubscribe))
    case DeleteMatched => after == m.(sel := after.sel)
      && Each(m.sel, after.sel, k => OfRow(items, at, k), (s: Selection) => s.(deleteMatched := !s.deleteMatched))
    case AllUnsub => after == m.(sel := after.sel)
      && Each(m.sel, after.sel, k => OfSection(items, at, k), (s: Selection) => s.(unsubscribe := true))
    case AllDelete => after == m.(sel := after.sel)
      && Each(m.sel, after.sel, k => OfSection(items, at, k), (s: Selection) => s.(deleteMatched := true))
    case ClearAll => after == m.(sel := after.sel)
      && forall k :: if OfSection(items, at, k) then k !in after.sel else Keeps(m.sel, after.sel, k)
    case DeleteAll =>
      if !(0 <= at < |items| && items[at].Row? && !items[at].protected) then after == m
      else if m.ackAll then after == m.(sel := after.sel)
        && Each(m.sel, after.sel, k => OfRow(items, at, k), (s: Selection) => s.(deleteAll := !s.deleteAll))
      else Asked(m, after, All, items, at, (s: Selection) => s.deleteAll)
    case IncludeKept =>
      if !(exists k :: OfRow(items, at, k) && k in m.sel && (m.sel[k].deleteMatched || m.sel[k].deleteAll)) then after == m
      else if m.ackKept then after == m.(sel := after.sel)
        && Each(m.sel, after.sel, k => OfRow(items, at, k), (s: Selection) => s.(includeKept := !s.includeKept))
      else Asked(m, after, Kept, items, at, (s: Selection) => s.includeKept)
    case Protect =>
      && after == m.(sel := after.sel, prot := after.prot, newly := after.newly)
      && (forall k :: k in after.prot <==> k in m.prot || OfRow(items, at, k))
      && (forall k :: if OfRow(items, at, k) then k !in after.sel else Keeps(m.sel, after.sel, k))
      && after.newly == m.newly + (if 0 <= at < |items| && items[at].Row? && !items[at].protected then items[at].members else [])
    case Quit => after == if m.sel != map[] then m.(confirmQuit := true)
        else m.(written := false, confirmQuit := false, left := true)
    case Write => after == m.(written := true, confirmQuit := false, left := true)
    case _ => after == m
  }

  /** What an answer means: yes sets the field asked about for the senders asked
      about, and is not asked again; no, and any other key, changes nothing. */
  ghost predicate AnswerMeant(m: Mind, after: Mind, press: Press) {
    if press.name == "y" || press.name == "Y" then
      && after == m.(sel := after.sel, confirming := false, pendingKeys := [], ackAll := after.ackAll, ackKept := after.ackKept)
      && (after.ackAll <==> m.ackAll || m.pendingField == All) && (after.ackKept <==> m.ackKept || m.pendingField == Kept)
      && Each(m.sel, after.sel, k => k in m.pendingKeys,
              (s: Selection) => if m.pendingField == Kept then s.(includeKept := m.pendingValue)
                  else s.(deleteAll := m.pendingValue))
    else after == if press.name == "n" || press.name == "N" || press.name == "esc" then m.(confirming := false,
        pendingKeys := []) else m
  }

  /** Setting a field or clearing, however often the same sender is named. */
  lemma {:induction false} SetAll(sel: Selections, keys: seq<string>, c: Change, k: string)
    requires !c.Flip? && k in keys
    ensures Turns(sel, ChangeAll(sel, keys, c), k, (s: Selection) => Changed(s, c))
    decreases |keys|
  {
    var front, last := keys[..|keys| - 1], keys[|keys| - 1];
    assert keys == front + [last];
    if k in front { SetAll(sel, front, c, k); } else { ChangeAllElse(sel, front, c, k); }
  }

  /** Changing distinct senders is changing each of them once. */
  lemma ChangesEach(sel: Selections, keys: seq<string>, c: Change)
    requires c.Flip? ==> Distinct(keys)
    ensures Each(sel, ChangeAll(sel, keys, c), k => k in keys, (s: Selection) => Changed(s, c))
  {
    forall k ensures if k in keys then Turns(sel, ChangeAll(sel, keys, c), k, (s: Selection) => Changed(s, c))
                     else Keeps(sel, ChangeAll(sel, keys, c), k)
    {
      if k !in keys {
        ChangeAllElse(sel, keys, c, k);
      } else if c.Flip? {
        ChangeAllAt(sel, keys, c, k);
      } else {
        SetAll(sel, keys, c, k);
      }
    }
  }

  /** The same with the senders and the change said in another way. */
  lemma EachIs(sel: Selections, after: Selections, keys: seq<string>, c: Change, which: string -> bool, f: Selection -> Selection)
    requires Each(sel, after, k => k in keys, (s: Selection) => Changed(s, c))
    requires (forall k :: which(k) <==> k in keys) && forall s :: f(s) == Changed(s, c)
    ensures Each(sel, after, which, f)
  {
    hide Changed;
    forall k ensures if which(k) then Turns(sel, after, k, f) else Keeps(sel, after, k) {
      assert if k in keys then Turns(sel, after, k, (s: Selection) => Changed(s, c)) else Keeps(sel, after, k);
    }
  }

  ghost predicate RowsDistinct(items: seq<Item>) {
    forall it <- items :: it.Row? ==> Distinct(it.members)
  }

  lemma RowFlips(m: Mind, items: seq<Item>, at: int, field: Field, f: Selection -> Selection)
    requires RowsDistinct(items) && forall s :: f(s) == Changed(s, Flip(field))
    ensures Each(m.sel, ChangeAll(m.sel, Free(items, at), Flip(field)), k => OfRow(items, at, k), f)
  {
    hide ChangeAll, Changed;
    ChangesEach(m.sel, Free(items, at), Flip(field));
    EachIs(m.sel, ChangeAll(m.sel, Free(items, at), Flip(field)), Free(items, at), Flip(field), k => OfRow(items, at, k), f);
  }

  lemma SectionSets(m: Mind, items: seq<Item>, at: int, c: Change, f: Selection -> Selection)
    requires !c.Flip? && forall s :: f(s) == Changed(s, c)
    ensures Bulked(m, items, at, c) == m.(sel := Bulked(m, items, at, c).sel)
    ensures Each(m.sel, Bulked(m, items, at, c).sel, k => OfSection(items, at, k), f)
  {
    hide ChangeAll, Changed, BulkKeys;
    if 0 <= at < |items| {
      var keys := BulkKeys(items, SectionAt(items[at]));
      BulkKeysHas(items, SectionAt(items[at]));
      ChangesEach(m.sel, keys, c);
      EachIs(m.sel, ChangeAll(m.sel, keys, c), keys, c, k => OfSection(items, at, k), f);
    }
  }

  lemma RowKeyMeaning(m: Mind, action: Action, items: seq<Item>, at: int)
    requires RowsDistinct(items) && (action.Unsubscribe? || action.DeleteMatched?)
    ensures Meant(m, Acting(m, action, items, at), action, items, at)
  {
    hide ChangeAll, BulkKeys, Each, OfSection, Bulked, Free;
    if action.Unsubscribe? {
      RowFlips(m, items, at, Unsub, (s: Selection) => s.(unsubscribe := !s.unsubscribe));
    } else {
      RowFlips(m, items, at, Matched, (s: Selection) => s.(deleteMatched := !s.deleteMatched));
    }
  }

  lemma EscalationMeaning(m: Mind, action: Action, items: seq<Item>, at: int)
    requires RowsDistinct(items) && (action.DeleteAll? || action.IncludeKept?)
    ensures Meant(m, Acting(m, action, items, at), action, items, at)
  {
    hide ChangeAll, BulkKeys, Each, OfSection, Bulked;
    if action.DeleteAll? {
      RowFlips(m, items, at, All, (s: Selection) => s.(deleteAll := !s.deleteAll));
    } else {
      RowFlips(m, items, at, Kept, (s: Selection) => s.(includeKept := !s.includeKept));
    }
  }

  lemma SectionKeyMeaning(m: Mind, action: Action, items: seq<Item>, at: int)
    requires InBulk(action)
    ensures Meant(m, Acting(m, action, items, at), action, items, at)
  {
    hide ChangeAll, BulkKeys, Each, OfSection, Bulked, Keeps;
    if action.AllUnsub? {
      SectionSets(m, items, at, Put(Unsub, true), (s: Selection) => s.(unsubscribe := true));
    } else if action.AllDelete? {
      SectionSets(m, items, at, Put(Matched, true), (s: Selection) => s.(deleteMatched := true));
    } else {
      ClearMeaning(m, items, at);
    }
  }

  /** Every key does what it means. */
  lemma ActingMeaning(m: Mind, action: Action, items: seq<Item>, at: int)
    requires RowsDistinct(items)
    ensures Meant(m, Acting(m, action, items, at), action, items, at)
  {
    hide Meant, Acting;
    if action.Unsubscribe? || action.DeleteMatched? {
      RowKeyMeaning(m, action, items, at);
    } else if action.DeleteAll? || action.IncludeKept? {
      EscalationMeaning(m, action, items, at);
    } else if InBulk(action) {
      SectionKeyMeaning(m, action, items, at);
    } else {
      OtherKeyMeaning(m, action, items, at);
    }
  }

  lemma OtherKeyMeaning(m: Mind, action: Action, items: seq<Item>, at: int)
    requires !action.Unsubscribe? && !action.DeleteMatched? && !action.DeleteAll? && !action.IncludeKept? && !InBulk(action)
    ensures Meant(m, Acting(m, action, items, at), action, items, at)
  {
    if action.Protect? {
      ProtectMeaning(m, items, at);
    } else if action.Quit? {
      assert m.sel == map[] <==> |m.sel| == 0;
    }
    hide ChangeAll, BulkKeys, Each, OfSection, Bulked, Keeps, OfRow, Free, AnyDeletes, OpenAt, SetOf;
  }

  lemma ProtectMeaning(m: Mind, items: seq<Item>, at: int)
    ensures Meant(m, Acting(m, Protect, items, at), Protect, items, at)
  {
    hide ChangeAll, BulkKeys, Each, OfSection, Bulked, AnyDeletes, Escalated;
    var after := Acting(m, Protect, items, at);
    assert forall k :: OfRow(items, at, k) <==> k in SetOf(Free(items, at));
    hide OfRow, SetOf;
    assert forall k :: if OfRow(items, at, k) then k !in after.sel else Keeps(m.sel, after.sel, k);
  }

  lemma ClearMeaning(m: Mind, items: seq<Item>, at: int)
    ensures var after := Bulked(m, items, at, Clear);
      after == m.(sel := after.sel) &&
      forall k :: if OfSection(items, at, k) then k !in after.sel else Keeps(m.sel, after.sel, k)
  {
    hide OfSection, Bulked;
    var after := Bulked(m, items, at, Clear);
    SectionSets(m, items, at, Clear, (s: Selection) => NOTHING);
    forall k ensures if OfSection(items, at, k) then k !in after.sel else Keeps(m.sel, after.sel, k) {
      assert if OfSection(items, at, k) then Turns(m.sel, after.sel, k, (s: Selection) => NOTHING)
          else Keeps(m.sel, after.sel, k);
    }
  }

  lemma AnsweredMeaning(m: Mind, press: Press)
    requires m.pendingField == All || m.pendingField == Kept
    ensures AnswerMeant(m, Answered(m, press), press)
  {
    hide ChangeAll, Each;
    if SaysYes(press) {
      var c := Put(m.pendingField, m.pendingValue);
      ChangesEach(m.sel, m.pendingKeys, c);
      EachIs(m.sel, ChangeAll(m.sel, m.pendingKeys, c), m.pendingKeys, c, k => k in m.pendingKeys,
             (s: Selection) => if m.pendingField == Kept then s.(includeKept := m.pendingValue)
                 else s.(deleteAll := m.pendingValue));
    }
  }

  /** What a yes or no to leaving without writing means. */
  ghost predicate QuitMeant(m: Mind, after: Mind, press: Press) {
    after == if press.name == "y" || press.name == "Y" || press.name == "ctrl+c" then m.(written := false,
        confirmQuit := false, left := true)
             else if press.name == "n" || press.name == "N" || press.name == "esc"
                 || press.name == "q" then m.(confirmQuit := false)
             else m
  }

  /** What each key means for what is shown. */
  ghost predicate ShownMeant(v: Display, after: Display, action: Action, items: seq<Item>, at: int) {
    match action
    case Filter => after == v.(filtering := true, draft := v.filter, saved := v.filter)
    case Sort => after == v.(sorting := after.sorting) && after.sorting < 4 && (after.sorting - v.sorting - 1) % 4 == 0
    case GroupBy => after == v.(domainMode := !v.domainMode, expanded := {})
    case ShowDecided => after == v.(showDecided := !v.showDecided)
    case Cancel => after == v.(detail := false)
    case Detail =>
      if 0 <= at < |items| && items[at].Header? then
        after == v.(collapsed := after.collapsed)
        && forall s :: s in after.collapsed <==> if s == items[at].of then s !in v.collapsed else s in v.collapsed
      else if 0 <= at < |items| && |items[at].children| > 1 then
        after == v.(expanded := after.expanded)
        && forall k :: k in after.expanded <==> if k == items[at].key then k !in v.expanded else k in v.expanded
      else after == v.(detail := !v.detail)
    case _ => after == v
  }

  /** What typing in the filter field means. */
  ghost predicate TypedMeant(v: Display, after: Display, press: Press) {
    if press.name == "esc" then after == v.(filtering := false, draft := v.saved, filter := v.saved)
    else if press.name == "enter" then after == v.(filtering := false, filter := v.draft)
    else
      && after == v.(draft := after.draft, filter := after.draft)
      && if press.name == "ctrl+u" then after.draft == ""
         else if press.name != "backspace" then after.draft == v.draft + press.typed
         else if v.draft == "" then after.draft == "" else exists c :: v.draft == after.draft + [c]
  }

  lemma ShownMeaning(v: Display, action: Action, items: seq<Item>, at: int)
    ensures ShownMeant(v, Adjusted(v, action, items, at), action, items, at)
  {
  }

  lemma TypedMeaning(v: Display, press: Press)
    ensures TypedMeant(v, Typed(v, press), press)
  {
    if v.draft != "" { assert v.draft == v.draft[..|v.draft| - 1] + [v.draft[|v.draft| - 1]]; }
  }

  /** Where each key takes the cursor: a row or a page up or down, as far as the
      table goes; or to its first or last row, if there is one. */
  ghost predicate MovedMeant(items: seq<Item>, at: int, to: int, viewH: int, action: Action) {
    var page := if viewH < 1 then 1 else viewH;
    match action
    case Up => to == if at > 0 then at - 1 else 0
    case Down => to == if at + 1 < |items| then at + 1 else at
    case PageUp => to == if at > page then at - page else 0
    case PageDown => to == if at + page < |items| then at + page else if items == [] then 0 else |items| - 1
    case Top => (exists it <- items :: it.Row?) ==> 0 <= to < |items| && items[to].Row? && forall x :: 0 <= x < to ==>
        items[x].Header?
    case Bottom => (exists it <- items :: it.Row?) ==> 0 <= to < |items| && items[to].Row? && forall x :: to < x < |items| ==> items[x].Header?
    case _ => to == at
  }

  lemma MovedMeaning(items: seq<Item>, at: int, viewH: int, action: Action)
    requires if items == [] then at == 0 else 0 <= at < |items|
    ensures MovedMeant(items, at, Target(items, at, viewH, action), viewH, action)
  {
    var last := |items| - 1;
    NextRowMeaning(items, 0, 1);
    NextRowMeaning(items, 0, -1);
    NextRowMeaning(items, last, 1);
    NextRowMeaning(items, last, -1);
    if it :| it in items && it.Row? {
      var x :| 0 <= x < |items| && items[x] == it;
    }
  }

  /** What a row's boxes say of the senders behind it. */
  ghost predicate Ticks(box: Tri, members: seq<string>, had: string -> bool) {
    && (box == Yes <==> forall k <- members :: had(k))
    && (box == No <==> forall k <- members :: !had(k))
  }

  lemma BoxMeaning(sel: Selections, members: seq<string>, f: Field, had: string -> bool)
    requires members != [] && forall k :: had(k) <==> Get(Of(sel, k), f)
    ensures Ticks(TriOf(CountOf(sel, members, f), |members|), members, had)
  {
    TriMeaning(sel, members, f);
    hide TriOf, CountOf, Get, Of;
    forall k | k in members ensures had(k) <==> Get(Of(sel, k), f) { }
  }

  lemma CellsMeaning(sel: Selections, it: Item)
    requires it.Row? && it.members != []
    ensures it.protected ==> CellsOf(sel, it) == Locked
    ensures !it.protected ==>
              && CellsOf(sel, it).Boxes?
              && Ticks(CellsOf(sel, it).unsub, it.members, k => k in sel && sel[k].unsubscribe)
              && Ticks(CellsOf(sel, it).matched, it.members, k => k in sel && sel[k].deleteMatched)
              && Ticks(CellsOf(sel, it).all, it.members, k => k in sel && sel[k].deleteAll)
              && Ticks(CellsOf(sel, it).kept, it.members, k => k in sel && sel[k].includeKept)
  {
    hide Ticks, CountOf, TriOf;
    BoxMeaning(sel, it.members, Unsub, k => k in sel && sel[k].unsubscribe);
    BoxMeaning(sel, it.members, Matched, k => k in sel && sel[k].deleteMatched);
    BoxMeaning(sel, it.members, All, k => k in sel && sel[k].deleteAll);
    BoxMeaning(sel, it.members, Kept, k => k in sel && sel[k].includeKept);
  }

  /** There is one decision for each of these senders that has a selection; it
      waives the transactional rule only along with a delete. */
  ghost predicate Recorded(sel: Selections, keys: set<string>, ds: seq<Decision>) {
    && (forall k, s :: Decision(k, s) in ds <==>
          k in sel && k in keys
          && s == sel[k].(includeKept := sel[k].includeKept && (sel[k].deleteMatched || sel[k].deleteAll)))
    && forall x, y :: 0 <= x < y < |ds| ==> ds[x].key != ds[y].key
  }

  lemma NothingRecorded(sel: Selections)
    ensures Recorded(sel, {}, [])
  {
  }

  lemma RecordedMore(sel: Selections, keys: set<string>, ds: seq<Decision>, k: string)
    requires Recorded(sel, keys, ds) && k !in keys
    ensures Recorded(sel, keys + {k},
              if k in sel then ds + [Decision(k, sel[k].(includeKept := sel[k].includeKept && Deletes(sel[k])))] else ds)
  {
    if k in sel {
      var d := Decision(k, sel[k].(includeKept := sel[k].includeKept && Deletes(sel[k])));
      forall x | 0 <= x < |ds| ensures ds[x].key != k {
        assert Decision(ds[x].key, ds[x].sel) in ds;
      }
      assert forall e :: e in ds + [d] <==> e in ds || e == d;
    }
  }

  lemma RecordedAll(sel: Selections, keys: set<string>, ds: seq<Decision>)
    requires Recorded(sel, keys, ds) && sel.Keys <= keys
    ensures Recorded(sel, sel.Keys, ds)
    ensures forall d <- ds :: d.key in sel && d.sel.unsubscribe == sel[d.key].unsubscribe
              && d.sel.deleteMatched == sel[d.key].deleteMatched && d.sel.deleteAll == sel[d.key].deleteAll
  {
    forall d | d in ds ensures d.key in sel && d.sel.unsubscribe == sel[d.key].unsubscribe
      && d.sel.deleteMatched == sel[d.key].deleteMatched && d.sel.deleteAll == sel[d.key].deleteAll
    {
      assert Decision(d.key, d.sel) in ds;
    }
  }

  class Review {
    const gs: seq<Group>
    const prot0: set<string>
    const matches: (string, Item) -> bool
    const arrange: nat -> (seq<Item> -> seq<Item>)   // one order for each sort mode
    const byCount: seq<Item> -> seq<Item>

    var sel: Selections
    var prot: set<string>
    var newly: seq<string>

    var items: seq<Item>
    var cells: seq<Cells>
    var hidden: nat
    var cursor: int
    var offset: int
    var viewH: int
    var height: int

    var domainMode: bool
    var showDecided: bool
    var sorting: nat
    var filter: string
    var draft: string
    var saved: string
    var filtering: bool
    var detail: bool
    var expanded: set<string>
    var collapsed: set<Section>

    var ackAll: bool
    var ackKept: bool
    var confirming: bool
    var pendingField: Field
    var pendingKeys: seq<string>
    var pendingValue: bool
    var confirmQuit: bool
    var written: bool
    var left: bool

    function Choosing(): Mind
      reads this`sel, this`prot, this`newly, this`ackAll, this`ackKept, this`confirming, this`pendingField
      reads this`pendingKeys, this`pendingValue, this`confirmQuit, this`written, this`left
    {
      Mind(sel, prot, newly, ackAll, ackKept, confirming, pendingField, pendingKeys, pendingValue, confirmQuit, written, left)
    }

    function Showing(): Display
      reads this`domainMode, this`showDecided, this`sorting, this`filter, this`draft, this`saved, this`filtering
      reads this`detail, this`expanded, this`collapsed
    {
      Display(domainMode, showDecided, sorting, filter, draft, saved, filtering, detail, expanded, collapsed)
    }

    /** The decisions are what an action makes of those there were. */
    twostate predicate Did(action: Action)
      reads this
    {
      Choosing() == Acting(old(Choosing()), action, old(items), old(cursor))
    }

    /** No field is being typed in and no question is open. */
    predicate Idle()
      reads this`filtering, this`confirming, this`confirmQuit
    {
      !filtering && !confirming && !confirmQuit
    }

    /** What a key press did: the decisions and the display are what it makes of
        those there were; the cursor is where it was sent, or stays on what it
        was on. */
    twostate predicate Followed(press: Press)
      reads this
    {
      && Choosing() == Decided(old(Choosing()), old(filtering), press, old(items), old(cursor))
      && Showing() == Displayed(old(Showing()), old(confirming || confirmQuit), press, old(items), old(cursor))
      && (if old(Idle()) && Steers(press.action)
          then items == old(items) && cursor == Target(items, old(cursor), old(viewH), press.action) else StaysPut())
    }

    function View(): Look
      reads this`domainMode, this`showDecided, this`filter, this`sorting
    {
      Look(domainMode, showDecided, filter, matches, arrange(sorting), byCount)
    }

    /** The orders are orders and the sender keys are keys. */
    ghost predicate Given() {
      Orderly(gs, arrange, byCount)
    }

    /** What the user has decided: no protected sender has a selection, every
        selection asks for something, an escalation was confirmed first; newly
        protected senders are distinct and were not protected before. */
    ghost predicate Choices()
      reads this`sel, this`prot, this`newly, this`ackAll, this`ackKept, this`confirming, this`pendingKeys, this`pendingField
    {
      && SelectionsOk(sel, KeysOf(gs), prot, ackAll, ackKept)
      && prot == prot0 + SetOf(newly) && Distinct(newly) && SetOf(newly) !! prot0
      && (confirming ==> (forall k <- pendingKeys :: k in KeysOf(gs) && k !in prot)
                         && (pendingField == All || pendingField == Kept))
    }

    /** The table is the one the settings call for. */
    ghost predicate Drawn()
      reads this`domainMode, this`showDecided, this`filter, this`sorting, this`prot, this`collapsed, this`expanded
      reads this`sel, this`items, this`cells, this`hidden
    {
      && LookOk(View()) && RowsOk(Base(View(), gs, prot))
      && items == Table(View(), Base(View(), gs, prot), collapsed, expanded)
      && cells == AllCells(sel, items)
      && hidden == HiddenCount(View(), Base(View(), gs, prot))
    }

    ghost predicate Valid()
      reads this
    {
      && Given() && Choices() && Drawn() && WindowOk(|items|, cursor, offset, viewH)
      && viewH == Rows(height, filtering, detail)
    }

    constructor (groups: seq<Group>, protected: set<string>, matcher: (string, Item) -> bool,
                 order: nat -> (seq<Item> -> seq<Item>), weight: seq<Item> -> seq<Item>, bySender: bool, decided: bool)
      requires Orderly(groups, order, weight)
      ensures Valid() && sel == map[] && prot == prot0 == protected && newly == [] && gs == groups
    {
      hide Orderly, Drawn, Choices;
      gs, prot0, matches, arrange, byCount := groups, protected, matcher, order, weight;
      sel, prot, newly := map[], protected, [];
      items, cells, hidden, cursor, offset, viewH, height := [], [], 0, 0, 0, 0, 24;
      domainMode, showDecided, sorting := !bySender, decided, 0;
      filter, draft, saved, filtering, detail, expanded, collapsed := "", "", "", false, false, {}, {};
      ackAll, ackKept, confirming, pendingField, pendingKeys, pendingValue := false, false, false, All, [], false;
      confirmQuit, written, left := false, false, false;
      new;
      NothingChosen();
      Rebuild();
      Relayout();
    }

    lemma NothingChosen()
      requires sel == map[] && newly == [] && prot == prot0 && !confirming
      ensures Choices()
    {
    }

    /** The cells of every row, in the order of the rows. */
    method DrawCells()
      modifies this`cells
      ensures cells == AllCells(sel, items)
    {
      cells := [];
      for i := 0 to |items|
        invariant cells == AllCells(sel, items)[..i]
      {
        cells := cells + [CellsOf(sel, items[i])];
      }
    }

    /** What the cursor is on: a row, a header, or nothing. */
    function CursorTarget(): (string, int)
      reads this`cursor, this`items
    {
      if cursor < 0 || cursor >= |items| then ("", -1 as int)
      else if items[cursor].Header? then ("", items[cursor].of as int)
      else (items[cursor].key, -1 as int)
    }

    method ClampOffset()
      requires if |items| == 0 then cursor == 0 else 0 <= cursor < |items|
      modifies this`offset
      ensures NearestWindow(|items|, cursor, old(offset), offset, viewH)
    {
      var h := if viewH < 1 then 1 else viewH;
      var maxOffset := |items| - h;
      if maxOffset < 0 { maxOffset := 0; }
      if cursor < offset { offset := cursor; }
      if cursor >= offset + h { offset := cursor - h + 1; }
      if offset > maxOffset { offset := maxOffset; }
      if offset < 0 { offset := 0; }
    }

    /** Puts the cursor on a row, or the nearest there is, and scrolls to it. */
    method MoveTo(i: int)
      modifies this`cursor, this`offset
      ensures cursor == Clamp(i, |items|) && NearestWindow(|items|, cursor, old(offset), offset, viewH)
    {
      cursor := i;
      if cursor < 0 { cursor := 0; }
      if cursor > |items| - 1 { cursor := |items| - 1; }
      if cursor < 0 { cursor := 0; }
      ClampOffset();
    }

    method MoveBy(n: int)
      requires WindowOk(|items|, cursor, offset, viewH)
      modifies this`cursor, this`offset
      ensures cursor == Clamp(old(cursor) + n, |items|) && NearestWindow(|items|, cursor, old(offset), offset, viewH)
    {
      if |items| == 0 || n == 0 { return; }
      var target := cursor + n;
      if target < 0 { target := 0; }
      if target > |items| - 1 { target := |items| - 1; }
      MoveTo(target);
    }

    /** Off a header, in the given direction if there is a row that way, else in
        the other: it stays only where there are nothing but headers. */
    method SkipHeader(dir: int)
      requires dir == 1 || dir == -1
      requires if |items| == 0 then cursor == 0 else 0 <= cursor < |items|
      modifies this`cursor, this`offset
      ensures cursor == Skipped(items, old(cursor), dir)
      ensures if |items| == 0 then cursor == 0 else 0 <= cursor < |items|
      ensures old(WindowOk(|items|, cursor, offset, viewH)) ==> WindowOk(|items|, cursor, offset, viewH)
    {
      if |items| == 0 || !items[cursor].Header? { return; }
      var at := cursor;
      var j := at + dir;
      while 0 <= j < |items|
        invariant -1 <= j <= |items| && cursor == at && offset == old(offset)
        invariant NextRow(items, at, dir) == NextRow(items, j, dir)
        decreases if dir == 1 then |items| - j else j + 1
      {
        if !items[j].Header? { MoveTo(j); return; }
        j := j + dir;
      }
      j := at - dir;
      while 0 <= j < |items|
        invariant -1 <= j <= |items| && cursor == at && offset == old(offset)
        invariant NextRow(items, at, -dir) == NextRow(items, j, -dir)
        decreases if dir == 1 then j + 1 else |items| - j
      {
        if !items[j].Header? { MoveTo(j); return; }
        j := j - dir;
      }
    }

    /** Puts the cursor back where it was: on the row with that key if it is
        still shown, else on the header of that section, else at the top. */
    method RestoreCursor(key: string, section: int)
      modifies this`cursor, this`offset
      ensures cursor == Restored(items, key, section)
    {
      if key != "" {
        for i := 0 to |items|
          invariant FindRow(items, key, 0) == FindRow(items, key, i)
        {
          if items[i].Row? && items[i].key == key {
            cursor := i;
            return;
          }
        }
      }
      if section >= 0 {
        for i := 0 to |items|
          invariant FindHeader(items, section, 0) == FindHeader(items, section, i)
        {
          if items[i].Header? && items[i].of as int == section {
            cursor := i;
            return;
          }
        }
      }
      cursor := 0;
      SkipHeader(1);
    }

    /** The cursor stays, or the table was drawn anew and it is on what it was on. */
    twostate predicate StaysPut()
      reads this`cursor, this`items
    {
      || (items == old(items) && cursor == old(cursor))
      || ComesBack(old(items), old(cursor), items, cursor)
    }

    method Redraw()
      requires Given()
      modifies this`items, this`cells, this`hidden
      ensures Drawn()
    {
      GivenLook();
      hide Orderly, LookOk;
      TableRows(View(), gs, prot, collapsed, expanded);
      var base := BaseItems(View(), gs, prot);
      hidden, items := BuildTable(View(), base, collapsed, expanded);
      DrawCells();
    }

    lemma GivenLook()
      requires Given()
      ensures LookOk(View()) && DistinctKeys(gs)
    {
      assert View().arrange == arrange(sorting) && View().byCount == byCount;
    }

    /** Redraws the table, keeping the cursor on its row. */
    method Rebuild()
      requires Given()
      modifies this`items, this`cells, this`hidden, this`cursor, this`offset
      ensures Drawn() && WindowOk(|items|, cursor, offset, viewH)
      ensures ComesBack(old(items), old(cursor), items, cursor)
    {
      hide Orderly, Drawn;
      var target := CursorTarget();
      Redraw();
      RestoreCursor(target.0, target.1);
      RestoredMeaning(items, target.0, target.1);
      RestoredComesBack(old(items), old(cursor), items, target.0, target.1);
      ClampOffset();
    }

    /** Fits the table to the screen. */
    method Relayout()
      requires if |items| == 0 then cursor == 0 else 0 <= cursor < |items|
      modifies this`viewH, this`offset
      ensures NearestWindow(|items|, cursor, old(offset), offset, viewH)
      ensures viewH == Rows(height, filtering, detail)
    {
      var reserved := REVIEW_CHROME;
      if filtering { reserved := reserved + 1; }
      if detail { reserved := reserved + DETAIL_ROW + 2; }
      viewH := height - reserved;
      if viewH < 3 { viewH := 3; }
      ClampOffset();
    }

    /** The same, for those who need no more than that the table stays in order. */
    method Refit()
      requires WindowOk(|items|, cursor, offset, viewH)
      modifies this`viewH, this`offset
      ensures WindowOk(|items|, cursor, offset, viewH) && viewH == Rows(height, filtering, detail)
    {
      Relayout();
    }

    /** The row the cursor is on, if it is on one. */
    predicate OnRow()
      reads this`items, this`cursor
    {
      0 <= cursor < |items| && items[cursor].Row?
    }

    /** In a table that is drawn a row's members are senders, and it is
        protected exactly if one of them is. */
    lemma RowTrue(it: Item)
      requires Given() && Drawn() && it in items && it.Row?
      ensures Distinct(it.members) && (forall m <- it.members :: m in KeysOf(gs))
      ensures it.protected <==> exists m :: m in it.members && m in prot
    {
      TableRows(View(), gs, prot, collapsed, expanded);
      assert RowOf(gs, prot, it);
    }

    method SetSelection(keys: seq<string>, c: Change)
      modifies this`sel
      ensures sel == ChangeAll(old(sel), keys, c)
    {
      for i := 0 to |keys|
        invariant sel == ChangeAll(old(sel), keys[..i], c)
      {
        assert keys[..i + 1][..i] == keys[..i];
        sel := ChangeOne(sel, keys[i], c);
      }
      assert keys[..|keys|] == keys;
    }

    /** Changes the selections of the current row's senders, unless the row is
        protected. */
    method Toggle(c: Change)
      requires Valid() && Permitted(c, ackAll, ackKept)
      modifies this`sel, this`items, this`cells, this`hidden, this`cursor, this`offset
      ensures Valid() && StaysPut() && Choosing() == Marked(old(Choosing()), old(Free(items, cursor)), c)
    {
      hide Orderly, Drawn, Choices, WindowOk, Restored, ComesBack, Rows, Permitted, KeysOf;
      if !OnRow() || items[cursor].protected { return; }
      RowTrue(items[cursor]);
      ApplyTo(items[cursor].members, c);
    }

    /** Changes the selections of unprotected senders and redraws. */
    method ApplyTo(keys: seq<string>, c: Change)
      requires Given() && Choices() && Permitted(c, ackAll, ackKept)
      requires viewH == Rows(height, filtering, detail)
      requires forall m <- keys :: m in KeysOf(gs) && m !in prot
      modifies this`sel, this`items, this`cells, this`hidden, this`cursor, this`offset
      ensures Valid() && StaysPut() && sel == ChangeAll(old(sel), keys, c)
    {
      hide Orderly, Drawn, Rows, WindowOk, Restored, ComesBack, Permitted, ChangeAll;
      ChangeAllOk(sel, keys, c, KeysOf(gs), prot, ackAll, ackKept);
      hide SelectionsOk;
      SetSelection(keys, c);
      Rebuild();
    }

    /** Changes every unprotected row of the section the cursor is in. */
    method Bulk(c: Change)
      requires Valid() && Permitted(c, ackAll, ackKept)
      modifies this`sel, this`items, this`cells, this`hidden, this`cursor, this`offset
      ensures Valid() && StaysPut()
      ensures Choosing() == Bulked(old(Choosing()), old(items), old(cursor), c)
    {
      hide Orderly, Drawn, Choices, Restored, ComesBack, ChangeAll, BulkKeys, WindowOk, Rows;
      if cursor < 0 || cursor >= |items| { return; }
      var s := SectionAt(items[cursor]);
      var keys := SectionKeys(s);
      BulkUnprotected(s);
      ApplyTo(keys, c);
    }

    method SectionKeys(s: Section) returns (keys: seq<string>)
      ensures keys == BulkKeys(items, s)
    {
      keys := [];
      for i := 0 to |items|
        invariant keys == BulkKeys(items[..i], s)
      {
        assert items[..i + 1][..i] == items[..i];
        if items[i].Row? && !items[i].child && !items[i].protected && items[i].section == s {
          keys := keys + items[i].members;
        }
      }
      assert items[..|items|] == items;
    }

    lemma BulkUnprotected(s: Section)
      requires Given() && Drawn()
      ensures forall k <- BulkKeys(items, s) :: k in KeysOf(gs) && k !in prot
    {
      BulkKeysHas(items, s);
      forall k | k in BulkKeys(items, s) ensures k in KeysOf(gs) && k !in prot {
        var it :| it in items && it.Row? && !it.child && !it.protected && it.section == s && k in it.members;
        RowTrue(it);
      }
    }

    /** Protects the current row's senders and drops their selections. */
    method ProtectCurrent()
      requires Valid() && !confirming
      modifies this`sel, this`prot, this`newly, this`items, this`cells, this`hidden, this`cursor, this`offset
      ensures Valid() && StaysPut()
      ensures var ms := old(Free(items, cursor));
        prot == old(prot) + SetOf(ms) && newly == old(newly) + ms && sel == old(sel) - SetOf(ms)
    {
      hide Orderly, Drawn, Restored, ComesBack, Target, NearestWindow, ChangeAll, Expandable, Rows;
      if !OnRow() || items[cursor].protected { return; }
      RowTrue(items[cursor]);
      ProtectAll(items[cursor].members);
      Rebuild();
    }

    method ProtectAll(ms: seq<string>)
      requires Choices() && !confirming && Distinct(ms) && forall m <- ms :: m !in prot
      modifies this`sel, this`prot, this`newly
      ensures Choices()
      ensures prot == old(prot) + SetOf(ms) && newly == old(newly) + ms && sel == old(sel) - SetOf(ms)
    {
      ProtectedMore(newly, ms, prot);
      for i := 0 to |ms|
        invariant prot == old(prot) + SetOf(ms[..i]) && newly == old(newly) + ms[..i] && sel == old(sel) - SetOf(ms[..i])
      {
        assert ms[..i + 1] == ms[..i] + [ms[i]];
        assert SetOf(ms[..i + 1]) == SetOf(ms[..i]) + {ms[i]};
        prot, sel, newly := prot + {ms[i]}, sel - {ms[i]}, newly + [ms[i]];
      }
      assert ms[..|ms|] == ms;
    }

    lemma ProtectedMore(was: seq<string>, ms: seq<string>, taken: set<string>)
      requires Distinct(was) && Distinct(ms) && SetOf(was) <= taken && forall m <- ms :: m !in taken
      ensures Distinct(was + ms) && SetOf(was + ms) == SetOf(was) + SetOf(ms)
    {
      forall i, j | 0 <= i < j < |was + ms| ensures (was + ms)[i] != (was + ms)[j] {
        if i < |was| <= j { assert was[i] in SetOf(was) && ms[j - |was|] in ms; }
      }
    }

    /** Opens the question whether to set a field for the current row. */
    method Ask(f: Field)
      requires Valid() && OnRow() && !items[cursor].protected && (f == All || f == Kept)
      modifies this`confirming, this`pendingField, this`pendingKeys, this`pendingValue
      ensures Valid() && confirming && pendingField == f && pendingKeys == items[cursor].members
      ensures pendingValue <==> !AllHave(sel, items[cursor].members, f)
    {
      hide Orderly, Drawn, Restored, ComesBack, Target, NearestWindow, ChangeAll, Expandable, Rows;
      RowTrue(items[cursor]);
      confirming, pendingField, pendingKeys := true, f, items[cursor].members;
      pendingValue := !AllHave(sel, items[cursor].members, f);
    }

    /** Asks before the first escalation of a session; after that it toggles. */
    method Escalate(f: Field)
      requires Valid() && !confirming && OpenAt(items, cursor) && (f == All || f == Kept)
      modifies this`sel, this`items, this`cells, this`hidden, this`cursor, this`offset
      modifies this`confirming, this`pendingField, this`pendingKeys, this`pendingValue
      ensures Valid() && StaysPut() && Choosing() == Escalated(old(Choosing()), f, old(items[cursor].members))
    {
      hide Orderly, Drawn, Choices, WindowOk, Restored, ComesBack, ChangeAll, AllHave, Rows;
      if (if f == Kept then ackKept else ackAll) {
        Toggle(Flip(f));
      } else {
        Ask(f);
      }
    }

    method StartDeleteAll()
      requires Valid() && !confirming
      modifies this`sel, this`items, this`cells, this`hidden, this`cursor, this`offset
      modifies this`confirming, this`pendingField, this`pendingKeys, this`pendingValue
      ensures Valid() && StaysPut() && Did(DeleteAll)
    {
      hide Orderly, Drawn, Choices, WindowOk, Restored, ComesBack, Escalated, Rows;
      if OpenAt(items, cursor) { Escalate(All); }
    }

    /** Including mail that looks transactional only means anything along with
        a delete. */
    method StartIncludeKept()
      requires Valid() && !confirming
      modifies this`sel, this`items, this`cells, this`hidden, this`cursor, this`offset
      modifies this`confirming, this`pendingField, this`pendingKeys, this`pendingValue
      ensures Valid() && StaysPut() && Did(IncludeKept)
    {
      hide Orderly, Drawn, Choices, WindowOk, Restored, ComesBack, Escalated, Rows;
      if OpenAt(items, cursor) && AnyDeletes(sel, items[cursor].members) { Escalate(Kept); }
    }

    /** Does what was asked, once and for the session. */
    method Accept()
      requires Valid() && confirming
      modifies this`sel, this`items, this`cells, this`hidden, this`cursor, this`offset
      modifies this`confirming, this`pendingKeys, this`ackAll, this`ackKept
      ensures Valid() && StaysPut() && !confirming && pendingKeys == []
      ensures sel == ChangeAll(old(sel), old(pendingKeys), Put(pendingField, pendingValue))
      ensures ackAll == (old(ackAll) || pendingField != Kept) && ackKept == (old(ackKept) || pendingField == Kept)
    {
      hide Orderly, Drawn, Restored, ComesBack, ChangeAll, WindowOk, Rows;
      var keys := pendingKeys;
      if pendingField == Kept { ackKept := true; } else { ackAll := true; }
      confirming, pendingKeys := false, [];
      ApplyTo(keys, Put(pendingField, pendingValue));
    }

    /** The open question. */
    method HandleConfirm(press: Press)
      requires Valid() && confirming
      modifies this`sel, this`items, this`cells, this`hidden, this`cursor, this`offset
      modifies this`confirming, this`pendingKeys, this`ackAll, this`ackKept
      ensures Valid() && StaysPut() && Choosing() == Answered(old(Choosing()), press)
    {
      hide Orderly, Drawn, Restored, ComesBack, ChangeAll, WindowOk, SelectionsOk, Rows;
      if SaysYes(press) {
        Accept();
      } else if SaysNo(press) {
        confirming, pendingKeys := false, [];
      }
    }

    /** Collapses a section, expands a domain, or shows the detail pane. */
    method Enter()
      requires Valid()
      modifies this`collapsed, this`expanded, this`detail, this`viewH
      modifies this`items, this`cells, this`hidden, this`cursor, this`offset
      ensures Valid() && StaysPut() && Showing() == Entered(old(Showing()), old(items), old(cursor))
    {
      hide Orderly, Drawn, Choices, WindowOk, Restored, ComesBack, Rows, Expandable, Flipped;
      if 0 <= cursor < |items| && items[cursor].Header? {
        ToggleSection(items[cursor].of);
      } else if OnRow() && Expandable(items[cursor]) {
        ToggleRow(items[cursor].key);
      } else {
        ToggleDetail();
      }
    }

    method ToggleSection(s: Section)
      requires Valid()
      modifies this`collapsed, this`items, this`cells, this`hidden, this`cursor, this`offset
      ensures Valid() && StaysPut() && collapsed == Flipped(old(collapsed), s)
    {
      hide Orderly, Drawn, Choices, Restored, ComesBack, Rows;
      collapsed := Flipped(collapsed, s);
      Rebuild();
    }

    method ToggleRow(k: string)
      requires Valid()
      modifies this`expanded, this`items, this`cells, this`hidden, this`cursor, this`offset
      ensures Valid() && StaysPut() && expanded == Flipped(old(expanded), k)
    {
      hide Orderly, Drawn, Choices, Restored, ComesBack, Rows;
      expanded := Flipped(expanded, k);
      Rebuild();
    }

    method ToggleDetail()
      requires Valid()
      modifies this`detail, this`viewH, this`offset
      ensures Valid() && detail == !old(detail)
    {
      hide Orderly, Drawn, Choices;
      detail := !detail;
      Relayout();
    }

    method LeaveFilter(undo: bool)
      requires Valid() && filtering
      modifies this`filtering, this`draft, this`filter, this`viewH
      modifies this`items, this`cells, this`hidden, this`cursor, this`offset
      ensures Valid() && StaysPut() && !filtering && draft == filter == if undo then saved else old(draft)
    {
      hide Orderly, Drawn, Choices, Restored, ComesBack, NearestWindow, Rows;
      filtering := false;
      if undo { draft := saved; }
      filter := draft;
      Rebuild();
      Refit();
    }

    /** The one-line filter field. */
    method HandleFilter(press: Press)
      requires Valid() && filtering
      modifies this`filtering, this`draft, this`filter, this`viewH
      modifies this`items, this`cells, this`hidden, this`cursor, this`offset
      ensures Valid() && StaysPut() && Showing() == Typed(old(Showing()), press)
    {
      hide Orderly, Drawn, Choices, Restored, ComesBack, WindowOk, Rows;
      if press.name == "esc" {
        LeaveFilter(true);
      } else if press.name == "enter" {
        LeaveFilter(false);
      } else {
        if press.name == "backspace" {
          if |draft| > 0 { draft := draft[..|draft| - 1]; }
        } else if press.name == "ctrl+u" {
          draft := "";
        } else {
          draft := draft + press.typed;
        }
        filter := draft;
        Rebuild();
      }
    }

    /** Ends the review. */
    method Leave(write: bool)
      modifies this`written, this`confirmQuit, this`left
      ensures Choosing() == Gone(old(Choosing()), write)
    {
      written, confirmQuit, left := write, false, true;
    }

    /** Changes how the table is shown, not what is decided. */
    method ChangeView(action: Action)
      requires Valid() && (action.Sort? || action.GroupBy? || action.ShowDecided?)
      modifies this`sorting, this`domainMode, this`expanded, this`showDecided
      modifies this`items, this`cells, this`hidden, this`cursor, this`offset
      ensures Valid() && StaysPut()
      ensures sorting == if action.Sort? then (old(sorting) + 1) % 4 else old(sorting)
      ensures domainMode == (if action.GroupBy? then !old(domainMode) else old(domainMode))
      ensures expanded == (if action.GroupBy? then {} else old(expanded))
      ensures showDecided == (if action.ShowDecided? then !old(showDecided) else old(showDecided))
    {
      hide Orderly, Drawn, Choices, Restored, ComesBack, Target, NearestWindow, ChangeAll, Expandable, Rows;
      if action.Sort? {
        sorting := (sorting + 1) % 4;
      } else if action.GroupBy? {
        domainMode, expanded := !domainMode, {};
      } else {
        showDecided := !showDecided;
      }
      Rebuild();
    }

    method Move(action: Action)
      requires Valid()
      modifies this`cursor, this`offset
      ensures Valid() && cursor == Target(items, old(cursor), viewH, action)
    {
      hide Orderly, Drawn, Choices, Restored, ComesBack, NearestWindow, ChangeAll, Expandable, Rows;
      var page := if viewH < 1 then 1 else viewH;
      match action {
        case Up => MoveBy(-1);
        case Down => MoveBy(1);
        case PageUp => MoveBy(-page);
        case PageDown => MoveBy(page);
        case Top =>
          MoveTo(0);
          SkipHeader(1);
        case Bottom =>
          MoveTo(|items| - 1);
          SkipHeader(-1);
        case _ =>
      }
    }

    /** A key that toggles a field of the current row. */
    method MarkRow(action: Action)
      requires Valid() && (action.Unsubscribe? || action.DeleteMatched?)
      modifies this`sel, this`items, this`cells, this`hidden, this`cursor, this`offset
      ensures Valid() && StaysPut() && Did(action)
    {
      hide Orderly, Drawn, Choices, WindowOk, Restored, ComesBack, Marked, Free, Acting, Rows;
      ActingMarks(Choosing(), action, items, cursor);
      Toggle(Flip(if action.Unsubscribe? then Unsub else Matched));
    }

    /** A key that changes the current section. */
    method MarkSection(action: Action)
      requires Valid() && InBulk(action)
      modifies this`sel, this`items, this`cells, this`hidden, this`cursor, this`offset
      ensures Valid() && StaysPut() && Did(action)
    {
      hide Orderly, Drawn, Choices, WindowOk, Restored, ComesBack, Bulked, Acting, Rows;
      ActingMarks(Choosing(), action, items, cursor);
      Bulk(BulkChange(action));
    }

    method LeaveKey(action: Action)
      requires Valid() && (action.Quit? || action.Write?)
      modifies this`confirmQuit, this`written, this`left
      ensures Valid() && StaysPut() && Did(action)
    {
      hide Orderly, Drawn, Choices, WindowOk, Restored, ComesBack, Rows, Free;
      if action.Quit? && |sel| > 0 {
        confirmQuit := true;
      } else {
        Leave(action.Write?);
      }
    }

    method ProtectKey()
      requires Valid() && !confirming
      modifies this`sel, this`prot, this`newly, this`items, this`cells, this`hidden, this`cursor, this`offset
      ensures Valid() && StaysPut() && Did(Protect)
    {
      hide Orderly, Drawn, Choices, WindowOk, Restored, ComesBack, Rows, Free, SetOf;
      ProtectCurrent();
    }

    /** A key that decides something. */
    method Decide(action: Action)
      requires Valid() && !confirming && !confirmQuit && Decides(action)
      modifies this`sel, this`prot, this`newly, this`items, this`cells, this`hidden, this`cursor, this`offset
      modifies this`confirming, this`pendingField, this`pendingKeys, this`pendingValue
      modifies this`confirmQuit, this`written, this`left
      ensures Valid() && StaysPut() && Did(action)
    {
      hide Orderly, Drawn, Choices, WindowOk, Restored, ComesBack, Acting, Rows, Did;
      if action.Quit? || action.Write? {
        LeaveKey(action);
      } else if action.Protect? {
        ProtectKey();
      } else if action.DeleteAll? {
        StartDeleteAll();
      } else if action.IncludeKept? {
        StartIncludeKept();
      } else if InBulk(action) {
        MarkSection(action);
      } else {
        MarkRow(action);
      }
    }

    /** A key that changes what is shown. */
    method Adjust(action: Action)
      requires Valid() && !Decides(action) && !Steers(action)
      modifies this`domainMode, this`showDecided, this`sorting, this`draft, this`saved, this`filtering
      modifies this`detail, this`expanded, this`collapsed, this`viewH
      modifies this`items, this`cells, this`hidden, this`cursor, this`offset
      ensures Valid() && StaysPut() && Showing() == Adjusted(old(Showing()), action, old(items), old(cursor))
    {
      hide Orderly, Drawn, Choices, WindowOk, Restored, ComesBack, Entered, Rows;
      if action.Filter? {
        StartFilter();
      } else if action.Detail? {
        Enter();
      } else if action.Cancel? {
        CloseDetail();
      } else {
        ChangeView(action);
      }
    }

    method MoveKey(press: Press)
      requires Valid() && Idle() && Steers(press.action)
      modifies this
      ensures Valid() && Followed(press)
    {
      hide Orderly, Drawn, Choices, WindowOk, Restored, ComesBack, Target, Acting, Adjusted, Steers, Decides, Typed,
          Answered, Rows;
      Kinds(Choosing(), Showing(), press.action, items, cursor);
      Move(press.action);
    }

    method DecideKey(press: Press)
      requires Valid() && Idle() && Decides(press.action)
      modifies this
      ensures Valid() && Followed(press)
    {
      hide Orderly, Drawn, Choices, WindowOk, Restored, ComesBack, Target, Acting, Adjusted, Steers, Decides, Typed,
          Answered, Rows;
      ghost var m, v := Choosing(), Showing();
      Kinds(m, v, press.action, items, cursor);
      Decide(press.action);
      assert Showing() == v;
    }

    method AdjustKey(press: Press)
      requires Valid() && Idle() && !Decides(press.action) && !Steers(press.action)
      modifies this
      ensures Valid() && Followed(press)
    {
      hide Orderly, Drawn, Choices, WindowOk, Restored, ComesBack, Target, Acting, Adjusted, Steers, Decides, Typed,
          Answered, Rows;
      ghost var m, v := Choosing(), Showing();
      Kinds(m, v, press.action, items, cursor);
      Adjust(press.action);
      assert Choosing() == m;
    }

    /** A key on the table itself. */
    method HandleTable(press: Press)
      requires Valid() && Idle()
      modifies this
      ensures Valid() && Followed(press)
    {
      hide Orderly, Drawn, Choices, WindowOk, Steers, Decides, Followed, Rows;
      if Steers(press.action) {
        MoveKey(press);
      } else if Decides(press.action) {
        DecideKey(press);
      } else {
        AdjustKey(press);
      }
    }

    method StartFilter()
      requires Valid()
      modifies this`filtering, this`draft, this`saved, this`viewH, this`offset
      ensures Valid() && filtering && draft == saved == filter
    {
      hide Orderly, Drawn, Choices, Restored, ComesBack, Target, NearestWindow, ChangeAll, Expandable, Rows;
      filtering, draft, saved := true, filter, filter;
      Relayout();
    }

    method CloseDetail()
      requires Valid()
      modifies this`detail, this`viewH, this`offset
      ensures Valid() && !detail
    {
      hide Orderly, Drawn, Choices, Restored, ComesBack, Target, NearestWindow, ChangeAll, Expandable, Rows;
      if detail {
        detail := false;
        Relayout();
      }
    }

    method QuitKey(press: Press)
      requires Valid() && !filtering && !confirming && confirmQuit
      modifies this
      ensures Valid() && Followed(press)
    {
      hide Orderly, Drawn, Choices, WindowOk, Restored, ComesBack, Target, Acting, Adjusted, Rows;
      if press.name in {"y", "Y", "ctrl+c"} {
        Leave(false);
      } else if press.name in {"n", "N", "esc", "q"} {
        confirmQuit := false;
      }
    }

    method AnswerKey(press: Press)
      requires Valid() && !filtering && confirming
      modifies this
      ensures Valid() && Followed(press)
    {
      hide Orderly, Drawn, Choices, WindowOk, Restored, ComesBack, Target, Acting, Adjusted, Answered, Rows;
      HandleConfirm(press);
    }

    method TypeKey(press: Press)
      requires Valid() && filtering
      modifies this
      ensures Valid() && Followed(press)
    {
      hide Orderly, Drawn, Choices, WindowOk, Restored, ComesBack, Target, Acting, Adjusted, Typed, Rows, Answered,
          Gone, SaysYes, SaysNo, Steers;
      HandleFilter(press);
    }

    lemma CursorMeaning(action: Action)
      requires WindowOk(|items|, cursor, offset, viewH)
      ensures MovedMeant(items, cursor, Target(items, cursor, viewH, action), viewH, action)
    {
      MovedMeaning(items, cursor, viewH, action);
    }

    lemma RowsAreDistinct()
      requires Given() && Drawn()
      ensures RowsDistinct(items)
    {
      forall it | it in items && it.Row? ensures Distinct(it.members) { RowTrue(it); }
    }

    /** One key press, in whatever mode the screen is: it does what it is said to
        mean, to the decisions, to what is shown and to the cursor. */
    method HandleKey(press: Press)
      requires Valid()
      modifies this
      ensures Valid() && Followed(press)
      ensures old(Idle()) ==> Meant(old(Choosing()), Choosing(), press.action, old(items), old(cursor))
      ensures old(Idle()) ==> ShownMeant(old(Showing()), Showing(), press.action, old(items), old(cursor))
      ensures old(Idle()) && Steers(press.action) ==> items == old(items) && MovedMeant(items, old(cursor), cursor, old(viewH), press.action)
      ensures old(filtering) ==> Choosing() == old(Choosing()) && TypedMeant(old(Showing()), Showing(), press)
      ensures old(!filtering && confirming) ==> AnswerMeant(old(Choosing()), Choosing(), press)
      ensures old(!filtering && !confirming && confirmQuit) ==> QuitMeant(old(Choosing()), Choosing(), press)
      ensures old(!filtering && !Idle()) ==> Showing() == old(Showing())
    {
      hide Orderly, Drawn, WindowOk, Rows, Acting, Answered, Meant, AnswerMeant, Adjusted, Typed, ShownMeant, TypedMeant,
        Target, MovedMeant, Steers, SelectionsOk, Restored, ComesBack;
      RowsAreDistinct();
      ActingMeaning(Choosing(), press.action, items, cursor);
      if confirming { AnsweredMeaning(Choosing(), press); }
      ShownMeaning(Showing(), press.action, items, cursor);
      TypedMeaning(Showing(), press);
      CursorMeaning(press.action);
      if filtering {
        TypeKey(press);
      } else if confirming {
        AnswerKey(press);
      } else if confirmQuit {
        QuitKey(press);
      } else {
        HandleTable(press);
      }
    }

    /** The window was resized. */
    method Resize(h: int)
      requires Valid()
      modifies this`height, this`viewH, this`offset
      ensures Valid() && height == h && viewH == Rows(h, filtering, detail)
    {
      hide Orderly, Drawn, Choices, Restored, ComesBack, Target, NearestWindow, ChangeAll, Expandable, Rows;
      height := h;
      Relayout();
    }

    /** What the review leaves behind: a decision for each sender with a
        selection, in the order of the senders, and who was protected. */
    method Result() returns (decisions: seq<Decision>, protectedNow: seq<string>)
      requires Valid()
      ensures protectedNow == newly
      ensures if written then Recorded(sel, sel.Keys, decisions) else decisions == []
      ensures forall d <- decisions :: d.key !in prot && (d.sel.unsubscribe || d.sel.deleteMatched || d.sel.deleteAll)
    {
      hide Drawn, Restored, ComesBack, Target, NearestWindow, ChangeAll, Expandable, Recorded;
      decisions, protectedNow := [], newly;
      if !written { return; }
      NothingRecorded(sel);
      assert KeysOf(gs[..0]) == {};
      for i := 0 to |gs|
        invariant Recorded(sel, KeysOf(gs[..i]), decisions)
      {
        var k := gs[i].key;
        assert gs[..i + 1] == gs[..i] + [gs[i]];
        assert KeysOf(gs[..i + 1]) == KeysOf(gs[..i]) + {k};
        KeyIsNew(i);
        RecordedMore(sel, KeysOf(gs[..i]), decisions, k);
        if k in sel {
          decisions := decisions + [Decision(k, sel[k].(includeKept := sel[k].includeKept && Deletes(sel[k])))];
        }
      }
      assert gs[..|gs|] == gs;
      RecordedAll(sel, KeysOf(gs), decisions);
    }

    lemma KeyIsNew(i: nat)
      requires Given() && i < |gs|
      ensures gs[i].key !in KeysOf(gs[..i])
    {
      assert forall j :: 0 <= j < i ==> gs[j].key != gs[i].key;
      assert forall g <- gs[..i] :: g.key != gs[i].key;
    }
  }
}
