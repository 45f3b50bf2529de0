/** What an undo can and cannot do, whatever the log says and whatever the
    server holds. */
module UndoPolicy {
  import opened Mailbox
  import opened Audit
  import opened Events
  import opened Uids
  import opened UndoPlan
  import opened Undo

  /** A move line of the account's, or of no account's, that names the message k
      and says where it came from, whatever its status. */
  ghost predicate Records(l: Line, account: string, k: Key) {
    && l.action == Move && (l.account == account || l.account == "")
    && l.id == k.id != "" && l.dst == k.dst != NOWHERE && (l.src != NOWHERE || l.folder != NOWHERE)
  }

  ghost function RecordedFor(lines: seq<Line>, account: string, k: Key): nat {
    if lines == [] then 0
    else
      var l := lines[|lines| - 1];
      RecordedFor(lines[..|lines| - 1], account, k) + if Records(l, account, k) then 1 else 0
  }

  /** The source folder of the first of them. */
  ghost function FirstSource(lines: seq<Line>, account: string, k: Key): Folder {
    if lines == [] then NOWHERE
    else if Records(lines[0], account, k) then (if lines[0].src != NOWHERE then lines[0].src else lines[0].folder)
    else FirstSource(lines[1..], account, k)
  }

  lemma {:induction false} FirstSourceSnoc(lines: seq<Line>, account: string, k: Key, l: Line)
    ensures FirstSource(lines + [l], account, k) ==
            if 0 < RecordedFor(lines, account, k) then FirstSource(lines, account, k)
            else if Records(l, account, k) then Source(l) else NOWHERE
  {
    if lines != [] {
      assert (lines + [l])[1..] == lines[1..] + [l];
      FirstSourceSnoc(lines[1..], account, k, l);
      RecordedCons(lines, account, k);
    }
  }

  lemma {:induction false} RecordedCons(lines: seq<Line>, account: string, k: Key)
    requires lines != []
    ensures RecordedFor(lines, account, k) ==
            RecordedFor(lines[1..], account, k) + if Records(lines[0], account, k) then 1 else 0
  {
    if |lines| > 1 {
      var front := lines[..|lines| - 1];
      RecordedCons(front, account, k);
      assert front[1..] == lines[1..][..|lines| - 2];
    } else {
      assert lines[..0] == [] && lines[1..] == [];
    }
  }

  /** Undo wants exactly the messages some move line names, as many as there
      are such lines, for the folder the first of them gives. */
  lemma {:induction false} WantsMeaning(lines: seq<Line>, account: string, confirmed: set<Loc>, k: Key)
    ensures var wants := WantsOf(lines, account, confirmed);
      && (k in wants <==> 0 < RecordedFor(lines, account, k))
      && (k in wants ==> wants[k].count == RecordedFor(lines, account, k)
                         && wants[k].source == FirstSource(lines, account, k))
  {
    if lines != [] {
      var front, l := lines[..|lines| - 1], lines[|lines| - 1];
      assert lines == front + [l];
      WantsMeaning(front, account, confirmed, k);
      FirstSourceSnoc(front, account, k, l);
    }
  }

  /** A done line of the account's confirms the message at x as moved. */
  ghost predicate ConfirmedAt(lines: seq<Line>, account: string, x: Loc) {
    exists l <- lines ::
      && l.action == Move && l.status == Done && (l.account == account || l.account == "") && x.uid in l.uids
      && x.folder == (if l.src != NOWHERE then l.src else l.folder) != NOWHERE
  }

  lemma {:induction false} ConfirmedMeaning(lines: seq<Line>, account: string, x: Loc)
    ensures x in ConfirmedBy(lines, account) <==> ConfirmedAt(lines, account, x)
  {
    if lines != [] {
      var front, last := lines[..|lines| - 1], lines[|lines| - 1];
      ConfirmedMeaning(front, account, x);
      assert lines == front + [last];
      assert forall l :: l in lines <==> l in front || l == last;
      assert x in (if Confirms(last, account) then LocsOf(Source(last), last.uids) else {}) <==>
             Confirms(last, account) && x.folder == Source(last) && x.uid in last.uids;
    }
  }

  /** How many of the lines for k, in the first n, recorded a UID that no line
      confirms and that is among those present in the source folder still. */
  ghost function StillThere(lines: seq<Line>, n: nat, account: string, k: Key, present: set<nat>): nat
    requires n <= |lines|
  {
    if n == 0 then 0
    else
      var l := lines[n - 1];
      StillThere(lines, n - 1, account, k, present)
      + if Records(l, account, k) && l.uid != 0 && l.uid in present
           && !ConfirmedAt(lines, account, Loc(if l.src != NOWHERE then l.src else l.folder, l.uid)) then 1 else 0
  }

  lemma {:induction false} NeverIsStillThere(lines: seq<Line>, n: nat, account: string, k: Key, present: set<nat>)
    requires n <= |lines|
    ensures var wants := WantsOf(lines[..n], account, ConfirmedBy(lines, account));
      StillThere(lines, n, account, k, present) == if k in wants then Never(wants[k].unconfirmed, present) else 0
  {
    if n > 0 {
      var confirmed, l := ConfirmedBy(lines, account), lines[n - 1];
      assert lines[..n] == lines[..n - 1] + [l];
      NeverIsStillThere(lines, n - 1, account, k, present);
      ConfirmedMeaning(lines, account, Loc(Source(l), l.uid));
      hide ConfirmedAt, ConfirmedBy;
      NeverGrows(lines[..n - 1], l, account, confirmed, k, present);
    }
  }

  /** One more line adds its UID to those to check, if it is one to check. */
  lemma NeverGrows(front: seq<Line>, l: Line, account: string, confirmed: set<Loc>, k: Key, present: set<nat>)
    ensures var before, wants := WantsOf(front, account, confirmed), WantsOf(front + [l], account, confirmed);
      (if k in wants then Never(wants[k].unconfirmed, present) else 0)
      == (if k in before then Never(before[k].unconfirmed, present) else 0)
         + if Records(l, account, k) && l.uid != 0 && l.uid in present && Loc(Source(l), l.uid) !in confirmed then 1 else 0
  {
    assert (front + [l])[..|front|] == front;
    var before := WantsOf(front, account, confirmed);
    var had := if k in before then before[k].unconfirmed else [];
    Snoc(had, l.uid);
    assert had + [] == had;
  }

  /** One Trash folder's part of an undo, however far it got and by whatever
      commands: it acts only on messages the log names, at most its quota of
      each, the newest first, and puts none into a refused folder. */
  lemma PartBounded(hasMove: bool, w: World, d: Terms, special: seq<Folder>, p: Pick, ok: bool, k: Key)
    requires TermsOk(d) && PickOk(hasMove, w, d, p, ok) && k.dst == p.dst
    requires d.blocked == BlockedDestinations(d.lower, special)
    ensures forall l <- Acted(p.es) :: l in w.server.mail && l.folder == p.dst && KeyAt(w.server, l) in d.wants
    ensures |Acted(p.es) * Copies(w.server, p.dst, k.id)| <= if k in d.wants then d.quota[k] else 0
    ensures forall x, y :: x in Acted(p.es) && y in Copies(w.server, p.dst, w.server.mail[x].id) && y !in p.chosen
              ==> y.uid < x.uid
    ensures NeverInto(p.es, d.lower, special)
  {
    PickNeverInto(hasMove, w, d, special, p, ok);
    WithinActs(p.es, p.chosen);
    if p.chosen == map[] {
      assert Acted(p.es) * Copies(w.server, p.dst, k.id) == {};
    } else {
      ActedBounded(d, w.server, p.dst, p.chosen, Acted(p.es), k);
    }
  }

  /** The chosen copies of one message: at most its quota, and above the others. */
  lemma ChosenOf(d: Terms, s: Server, dst: Folder, chosen: map<Loc, Folder>, k: Key)
    requires TermsOk(d) && Picked(d.wants, d.quota, s, dst, chosen, OfFolder(d.wants, dst)) && k.dst == dst
    ensures |chosen.Keys * Copies(s, dst, k.id)| <= if k in d.wants then d.quota[k] else 0
    ensures forall x, y :: x in chosen && x in Copies(s, dst, k.id) && y in Copies(s, dst, k.id) && y !in chosen ==> y.uid < x.uid
  {
    var mine := chosen.Keys * Copies(s, dst, k.id);
    if k in d.wants {
      assert k in OfFolder(d.wants, dst);
      hide SentHome, TermsOk;
      assert Newest(Copies(s, dst, k.id), d.quota[k], mine);
    } else {
      hide Newest, TermsOk;
      assert mine == {};
    }
  }

  lemma ActedBounded(d: Terms, s: Server, dst: Folder, chosen: map<Loc, Folder>, acted: set<Loc>, k: Key)
    requires TermsOk(d) && Picked(d.wants, d.quota, s, dst, chosen, OfFolder(d.wants, dst)) && k.dst == dst
    requires acted <= chosen.Keys
    ensures |acted * Copies(s, dst, k.id)| <= if k in d.wants then d.quota[k] else 0
    ensures forall x, y :: x in acted && y in Copies(s, dst, s.mail[x].id) && y !in chosen ==> y.uid < x.uid
  {
    ChosenOf(d, s, dst, chosen, k);
    SubsetCount(acted * Copies(s, dst, k.id), chosen.Keys * Copies(s, dst, k.id));
    forall x, y | x in acted && y in Copies(s, dst, s.mail[x].id) && y !in chosen ensures y.uid < x.uid {
      ChosenOf(d, s, dst, chosen, KeyAt(s, x));
      assert x in Copies(s, dst, s.mail[x].id);
    }
  }

  /** The quota of a message: none if it came from a folder undo must not
      restore into; else what the log records of it, less, if the source folder
      could be opened, the recorded copies that are still there. */
  lemma QuotaMeaning(w: World, account: string, lower: Folder -> string, special: seq<Folder>, unchecked: set<Folder>, k: Key)
    requires k in TermsOf(w, account, lower, special, unchecked).wants
    ensures var recorded, source := RecordedFor(w.log, account, k), FirstSource(w.log, account, k);
      var still := StillThere(w.log, |w.log|, account, k, Holding(w.server, source, k.id));
      TermsOf(w, account, lower, special, unchecked).quota[k] ==
        if Forbidden(lower, special, source) then 0
        else if source in unchecked then recorded
        else if recorded < still then 0 else recorded - still
  {
    WantsMeaning(w.log, account, ConfirmedBy(w.log, account), k);
    var source := FirstSource(w.log, account, k);
    RefusesMeaning(lower, special, source);
    assert w.log[..|w.log|] == w.log;
    NeverIsStillThere(w.log, |w.log|, account, k, Holding(w.server, source, k.id));
  }

  /** What is reported as missing: what must not be restored, and what is due
      and not in the Trash folder. */
  lemma MissingMeaning(w: World, account: string, lower: Folder -> string, special: seq<Folder>, unchecked: set<Folder>,
                       s: Server, dst: Folder, k: Key)
    requires k in TermsOf(w, account, lower, special, unchecked).wants && k.dst == dst
    ensures var d := TermsOf(w, account, lower, special, unchecked);
      k in Missing(d.wants, d.quota, lower, d.blocked, s, dst, OfFolder(d.wants, dst)) <==>
        Forbidden(lower, special, FirstSource(w.log, account, k)) || (0 < d.quota[k] && Copies(s, dst, k.id) == {})
  {
    WantsMeaning(w.log, account, ConfirmedBy(w.log, account), k);
    RefusesMeaning(lower, special, FirstSource(w.log, account, k));
  }
}
