/** What undo can tell from the log that a crash leaves of a delete run: how
    many copies of each message it is entitled to, which it then chooses in
    Trash, and when those are exactly the ones the run put there. */
module Entitlement {
  import opened Mailbox
  import opened Audit
  import opened Events
  import opened Uids
  import opened WriteAhead
  import opened UndoPlan
  import opened Undo
  import opened UndoPolicy

  /** at has some of the run's messages at positions not in use in r.s0. */
  ghost predicate Elsewhere(r: Run, at: map<Loc, Loc>) {
    forall t <- at :: t.folder in r.s0.next && r.s0.next[t.folder] <= t.uid && Original(r, at[t])
  }

  /** The server holds r.s0's messages, those in at being at a position that
      was not in use in r.s0 instead of at their own. */
  ghost predicate Placed(r: Run, s: Server, at: map<Loc, Loc>) {
    && ServerOk(r.s0) && ServerOk(s)
    && s.next.Keys == r.s0.next.Keys && s.validity == r.s0.validity
    && (forall f <- s.next :: r.s0.next[f] <= s.next[f])
    && Elsewhere(r, at) && Injective(at)
    && s.mail == Displace(r.s0, at)
  }

  /** The messages that are in Trash, and those that are somewhere else again. */
  ghost function Out(r: Run, at: map<Loc, Loc>): set<Loc> {
    set t | t in at && t.folder == r.trash
  }

  ghost function OutOf(r: Run, at: map<Loc, Loc>, id: string): set<Loc> {
    set t | t in at && t.folder == r.trash && at[t] in r.s0.mail && r.s0.mail[at[t]].id == id
  }

  ghost function BackOf(r: Run, at: map<Loc, Loc>, id: string): set<Loc> {
    set t | t in at && t.folder != r.trash && at[t] in r.s0.mail && r.s0.mail[at[t]].id == id
  }

  /** The positions with that Message-ID that the log's pending lines name. */
  ghost function IntentsOf(r: Run, log: seq<Line>, id: string): set<Loc> {
    set l | l in Intents(log) && l in r.s0.mail && r.s0.mail[l].id == id
  }

  /** What a log is good for: it is well formed, names everything that moved,
      and confirms nothing that did not. */
  ghost predicate Witnessed(r: Run, log: seq<Line>, moved: set<Loc>) {
    LogOk(r, log) && Confirmed(log) <= moved <= Intents(log)
  }

  /** Whatever a crash leaves of the log, from the durable part up, will do. */
  lemma CrashWitnessed(r: Run, w: World, k: nat)
    requires Inv(r, w) && w.synced <= k <= |w.log|
    ensures Witnessed(r, w.log[..k], w.came.Values) && Placed(r, w.server, w.came)
  {
    DurableOk(r, w.log, k);
    ReadPrefix(w.log, k);
    assert w.log[..k][..w.synced] == w.log[..w.synced];
    ReadPrefix(w.log[..k], w.synced);
  }

  /** Undo reads out of such a log what its done lines confirm. */
  lemma {:induction false} ConfirmedByRun(r: Run, log: seq<Line>)
    requires LogOk(r, log)
    ensures ConfirmedBy(log, r.account) == Confirmed(log)
  {
    if log != [] {
      ConfirmedByRun(r, log[..|log| - 1]);
    }
  }

  /** Those of the positions that are not confirmed and whose UID is in present. */
  ghost function Undecided(locs: set<Loc>, confirmed: set<Loc>, present: set<nat>): set<Loc> {
    set l | l in locs && l !in confirmed && l.uid in present
  }

  /** What one pending line adds. */
  lemma IntentsOfSnoc(r: Run, log: seq<Line>, l: Line, id: string)
    requires LogOk(r, log + [l])
    ensures IntentsOf(r, log + [l], id) ==
            IntentsOf(r, log, id) + if IsIntent(l) && l.id == id then {Loc(l.src, l.uid)} else {}
    ensures IsIntent(l) ==> Loc(l.src, l.uid) !in IntentsOf(r, log, id)
    ensures LogOk(r, log) && LineOk(r, l)
  {
    LogSnoc(r, log, l);
    ReadSnoc(log, l);
  }

  /** What undo wants of a message recorded at the positions locs: as many
      copies, for the folder of one of them; and whatever UIDs are present in
      that folder, it counts as never moved the unconfirmed ones among them. */
  ghost predicate WantIs(locs: set<Loc>, confirmed: set<Loc>, present: set<nat>, w: Want) {
    && w.count == |locs|
    && Never(w.unconfirmed, present) == |Undecided(locs, confirmed, present)|
    && exists l :: l in locs && l.folder == w.source
  }

  lemma NeverMore(unconfirmed: seq<nat>, uid: nat, present: set<nat>)
    ensures Never(unconfirmed + [uid], present) == Never(unconfirmed, present) + if uid in present then 1 else 0
    ensures Never([], present) == 0
  {
    Snoc(unconfirmed, uid);
  }

  lemma UndecidedMore(locs: set<Loc>, at: Loc, confirmed: set<Loc>, present: set<nat>)
    requires at !in locs
    ensures |Undecided(locs + {at}, confirmed, present)| ==
            |Undecided(locs, confirmed, present)| + if at !in confirmed && at.uid in present then 1 else 0
    ensures Undecided({}, confirmed, present) == {}
  {
    assert Undecided(locs + {at}, confirmed, present) ==
           Undecided(locs, confirmed, present) + if at !in confirmed && at.uid in present then {at} else {};
  }

  lemma WantIsMore(locs: set<Loc>, at: Loc, confirmed: set<Loc>, present: set<nat>, w: Want)
    requires at !in locs
    requires if locs == {} then w == Want(at.folder, 0, []) else WantIs(locs, confirmed, present, w)
    ensures var more := if at !in confirmed then [at.uid] else [];
      WantIs(locs + {at}, confirmed, present, Want(w.source, w.count + 1, w.unconfirmed + more))
  {
    NeverMore(w.unconfirmed, at.uid, present);
    UndecidedMore(locs, at, confirmed, present);
    assert w.unconfirmed + [] == w.unconfirmed;
    hide Undecided, Never;
    if locs == {} {
      assert at in locs + {at};
    } else {
      var l :| l in locs && l.folder == w.source;
      assert l in locs + {at};
    }
  }

  lemma {:induction false} WantsOfRun(r: Run, log: seq<Line>, confirmed: set<Loc>, id: string, present: set<nat>)
    requires LogOk(r, log) && r.trash != NOWHERE
    ensures var wants, k := WantsOf(log, r.account, confirmed), Key(r.trash, id);
      && (k in wants <==> IntentsOf(r, log, id) != {})
      && (k in wants ==> WantIs(IntentsOf(r, log, id), confirmed, present, wants[k]))
  {
    hide WantIs, LineOk, IntentsOf, LogOk, WantsOf;
    if log == [] {
      NoIntents(r, id, confirmed);
    } else {
      var front, l := log[..|log| - 1], log[|log| - 1];
      assert log == front + [l];
      IntentsOfSnoc(r, front, l, id);
      WantsOfRun(r, front, confirmed, id, present);
      WantsSnoc(r, front, l, confirmed, id);
      var before, k := WantsOf(front, r.account, confirmed), Key(r.trash, id);
      if IsIntent(l) && l.id == id {
        WantIsMore(IntentsOf(r, front, id), Loc(l.src, l.uid), confirmed, present,
          if k in before then before[k] else Want(l.src, 0, []));
      } else {
        assert IntentsOf(r, log, id) == IntentsOf(r, front, id);
      }
    }
  }

  lemma NoIntents(r: Run, id: string, confirmed: set<Loc>)
    ensures IntentsOf(r, [], id) == {} && WantsOf([], r.account, confirmed) == map[]
  {
  }

  /** What one more line does to what undo wants of one message. */
  lemma WantsSnoc(r: Run, log: seq<Line>, l: Line, confirmed: set<Loc>, id: string)
    requires LogOk(r, log + [l]) && r.trash != NOWHERE
    ensures var before, wants, k := WantsOf(log, r.account, confirmed), WantsOf(log + [l], r.account, confirmed),
        Key(r.trash, id);
      if IsIntent(l) && l.id == id then
        var w := if k in before then before[k] else Want(l.src, 0, []);
        var more := if Loc(l.src, l.uid) !in confirmed then [l.uid] else [];
        k in wants && wants[k] == Want(w.source, w.count + 1, w.unconfirmed + more)
      else
        (k in wants <==> k in before) && (k in before ==> wants[k] == before[k])
  {
    IntentsOfSnoc(r, log, l, id);
    Snoc(log, l);
    assert IsIntent(l) ==> Names(l, r.account);
  }

  /** The folder undo restores a message to: the first that the log gives for it. */
  ghost function Goal(r: Run, log: seq<Line>): string -> Folder {
    id => FirstSource(log, r.account, Key(r.trash, id))
  }

  /** What an undo works with besides the log: how names read in lower case,
      which mailboxes are special-use, and which sources it could not open. */
  datatype Site = Site(lower: Folder -> string, special: seq<Folder>, unchecked: set<Folder>)

  ghost function TermsAt(r: Run, w: World, x: Site): Terms {
    TermsOf(w, r.account, x.lower, x.special, x.unchecked)
  }

  ghost predicate RefusesGoal(r: Run, log: seq<Line>, x: Site, id: string) {
    Refuses(x.lower, BlockedDestinations(x.lower, x.special), Goal(r, log)(id))
  }

  /** The recorded messages with that Message-ID that never left their place. */
  ghost function Here(r: Run, w: World, id: string): set<Loc> {
    set l | l in IntentsOf(r, w.log, id) && l in w.server.mail
  }

  /** Those that undo takes to be such: it looks for the unconfirmed UIDs in
      the folder of the first line for the message, if it can open that. */
  ghost function Seen(r: Run, w: World, x: Site, id: string): set<Loc> {
    var src := Goal(r, w.log)(id);
    if src in x.unchecked then {}
    else Undecided(IntentsOf(r, w.log, id), Confirmed(w.log), Holding(w.server, src, id))
  }

  /** How many copies of a message undo is then due. */
  ghost function Due(r: Run, w: World, x: Site, id: string): int {
    if RefusesGoal(r, w.log, x, id) then 0 else |IntentsOf(r, w.log, id)| - |Seen(r, w, x, id)|
  }

  lemma QuotaIsDue(r: Run, w: World, x: Site, id: string)
    requires LogOk(r, w.log) && r.trash != NOWHERE
    ensures var d, k := TermsAt(r, w, x), Key(r.trash, id);
      && (k in d.wants <==> IntentsOf(r, w.log, id) != {})
      && (k in d.wants ==> d.quota[k] == Due(r, w, x, id) && d.wants[k].source == Goal(r, w.log)(id))
    ensures IntentsOf(r, w.log, id) != {} ==> exists l :: l in IntentsOf(r, w.log, id) && l.folder == Goal(r, w.log)(id)
    ensures IntentsOf(r, w.log, id) == {} ==> Due(r, w, x, id) == 0
  {
    hide LogOk, IntentsOf, Refuses, Holding, WantsOf, ConfirmedBy, Never, FirstSource, Undecided;
    var d, k, src := TermsAt(r, w, x), Key(r.trash, id), Goal(r, w.log)(id);
    var all, present := IntentsOf(r, w.log, id), Holding(w.server, src, id);
    ConfirmedByRun(r, w.log);
    WantsOfRun(r, w.log, Confirmed(w.log), id, present);
    WantsMeaning(w.log, r.account, Confirmed(w.log), k);
    UndecidedIsPart(all, Confirmed(w.log), present);
  }

  lemma UndecidedIsPart(locs: set<Loc>, confirmed: set<Loc>, present: set<nat>)
    ensures Undecided(locs, confirmed, present) <= locs
    ensures |Undecided(locs, confirmed, present)| <= |locs|
  {
    SubsetCount(Undecided(locs, confirmed, present), locs);
  }

  /** Undo can tell how many of a message's recorded copies moved if they were
      all in one folder, or every one is confirmed. */
  ghost predicate Clear(r: Run, log: seq<Line>, id: string) {
    OneFolder(IntentsOf(r, log, id)) || IntentsOf(r, log, id) <= Confirmed(log)
  }

  /** Where the messages with that Message-ID that the run took are now. */
  ghost function AtOf(r: Run, at: map<Loc, Loc>, id: string): set<Loc> {
    set t | t in at && at[t] in r.s0.mail && r.s0.mail[at[t]].id == id
  }

  ghost function Image(at: map<Loc, Loc>, ts: set<Loc>): set<Loc>
    requires ts <= at.Keys
  {
    set t | t in ts :: at[t]
  }

  lemma {:induction false} ImageCount(at: map<Loc, Loc>, ts: set<Loc>)
    requires ts <= at.Keys && Injective(at)
    ensures |Image(at, ts)| == |ts|
  {
    if ts != {} {
      var t :| t in ts;
      ImageCount(at, ts - {t});
      assert Image(at, ts) == Image(at, ts - {t}) + {at[t]};
    }
  }

  /** A message of r.s0 is where it was exactly if the run did not take it. */
  lemma StillThere(r: Run, s: Server, at: map<Loc, Loc>, l: Loc)
    requires Placed(r, s, at) && l in r.s0.mail
    ensures l !in at && (l in s.mail <==> l !in at.Values)
    ensures l in s.mail ==> s.mail[l] == r.s0.mail[l]
  {
  }

  lemma HeldOne(r: Run, s: Server, at: map<Loc, Loc>, l: Loc)
    requires Placed(r, s, at) && l in r.s0.mail
    ensures l.uid in Holding(s, l.folder, r.s0.mail[l].id) <==> l !in at.Values
  {
    StillThere(r, s, at, l);
    var id := r.s0.mail[l].id;
    if l.uid in Holding(s, l.folder, id) {
      var x :| x in Copies(s, l.folder, id) && x.uid == l.uid;
      assert x == l;
    }
  }

  lemma HereStayed(r: Run, w: World, at: map<Loc, Loc>, id: string)
    requires Placed(r, w.server, at)
    ensures Here(r, w, id) == IntentsOf(r, w.log, id) - at.Values
  {
    hide Placed;
    forall l | l in IntentsOf(r, w.log, id) ensures l in w.server.mail <==> l !in at.Values {
      StillThere(r, w.server, at, l);
    }
  }

  /** In a clear log undo sees exactly what stayed, if it can look. */
  lemma SeenStayed(r: Run, w: World, at: map<Loc, Loc>, x: Site, id: string)
    requires Placed(r, w.server, at) && Witnessed(r, w.log, at.Values) && Clear(r, w.log, id) && r.trash != NOWHERE
    ensures Seen(r, w, x, id) <= Here(r, w, id)
    ensures Goal(r, w.log)(id) !in x.unchecked ==> Seen(r, w, x, id) == Here(r, w, id)
  {
    hide Placed, Holding, LogOk, Goal, TermsOf;
    var all, src := IntentsOf(r, w.log, id), Goal(r, w.log)(id);
    var present := Holding(w.server, src, id);
    HereStayed(r, w, at, id);
    QuotaIsDue(r, w, x, id);
    if OneFolder(all) {
      forall l | l in all ensures l.uid in present <==> l !in at.Values {
        HeldOne(r, w.server, at, l);
      }
    }
  }

  lemma TakenAreIntended(r: Run, log: seq<Line>, at: map<Loc, Loc>, id: string)
    requires Witnessed(r, log, at.Values)
    ensures Image(at, AtOf(r, at, id)) == IntentsOf(r, log, id) * at.Values
  {
    var a, b := Image(at, AtOf(r, at, id)), IntentsOf(r, log, id) * at.Values;
    forall l | l in b ensures l in a {
      var t :| t in at && at[t] == l;
      assert t in AtOf(r, at, id);
    }
  }

  /** What the run recorded of a message, it took or it left. */
  lemma TakenCount(r: Run, w: World, at: map<Loc, Loc>, id: string)
    requires Placed(r, w.server, at) && Witnessed(r, w.log, at.Values)
    ensures |AtOf(r, at, id)| + |Here(r, w, id)| == |IntentsOf(r, w.log, id)|
  {
    hide Placed, Witnessed, IntentsOf, AtOf, Here, Image;
    AtOfCount(r, w.server, at, id);
    TakenAreIntended(r, w.log, at, id);
    HereStayed(r, w, at, id);
    Parts(IntentsOf(r, w.log, id), at.Values);
  }

  lemma Parts(a: set<Loc>, b: set<Loc>)
    ensures |a| == |a * b| + |a - b|
  {
    assert a == a * b + (a - b);
  }

  lemma AtOfCount(r: Run, s: Server, at: map<Loc, Loc>, id: string)
    requires Placed(r, s, at)
    ensures |Image(at, AtOf(r, at, id))| == |AtOf(r, at, id)|
  {
    ImageCount(at, AtOf(r, at, id));
  }

  /** From a clear log undo is due no fewer copies than the run took of a
      message it does not refuse, and exactly as many if it can look in the
      source. */
  lemma Entitled(r: Run, w: World, at: map<Loc, Loc>, x: Site, id: string)
    requires Placed(r, w.server, at) && Witnessed(r, w.log, at.Values) && Clear(r, w.log, id) && r.trash != NOWHERE
    requires !RefusesGoal(r, w.log, x, id)
    ensures |AtOf(r, at, id)| <= Due(r, w, x, id)
    ensures Goal(r, w.log)(id) !in x.unchecked ==> Due(r, w, x, id) == |AtOf(r, at, id)|
  {
    hide Placed, Witnessed, Clear, Seen, Here, IntentsOf, AtOf;
    SeenStayed(r, w, at, x, id);
    SubsetCount(Seen(r, w, x, id), Here(r, w, id));
    TakenCount(r, w, at, id);
  }

  /** The n newest of some old and young copies, all the young ones newer, are
      the young ones if and only if there are n of those, or fewer but no old
      ones; and they include the young ones if those are no more than n. */
  lemma NewestSplit(older: set<Loc>, young: set<Loc>, n: nat, top: set<Loc>)
    requires forall x, y :: x in older && y in young ==> x.uid < y.uid
    requires Newest(older + young, n, top)
    ensures |young| <= n ==> young <= top
    ensures top == young <==> n == |young| || (|young| < n && older == {})
  {
    assert older !! young;
    assert |older + young| == |older| + |young|;
    if |young| <= n {
      if !(young <= top) {
        var y :| y in young && y !in top;
        forall z | z in top ensures z in young - {y} {
          assert y.uid < z.uid;
        }
        SubsetCount(top, young - {y});
        assert false;
      }
      SubsetCount(young, top);
      if older == {} { SubsetCount(top, older + young); }
    }
  }

  /** What is where on the server. */
  lemma NowAt(r: Run, s: Server, at: map<Loc, Loc>, l: Loc)
    requires Placed(r, s, at)
    ensures l in s.mail <==> l in at || (l in r.s0.mail && l !in at.Values)
    ensures l in at ==> l !in r.s0.mail && at[l] in r.s0.mail && at[l].folder != r.trash && s.mail[l] == r.s0.mail[at[l]]
    ensures l in s.mail && l !in at ==> s.mail[l] == r.s0.mail[l]
    ensures l in at.Values ==> l in r.s0.mail && l.folder != r.trash
  {
    StillThereIfOriginal(r, s, at, l);
  }

  lemma StillThereIfOriginal(r: Run, s: Server, at: map<Loc, Loc>, l: Loc)
    requires Placed(r, s, at)
    ensures l in r.s0.mail ==> l !in at
  {
  }

  lemma OlderThanTaken(r: Run, s: Server, at: map<Loc, Loc>, id: string)
    requires Placed(r, s, at)
    ensures forall x, y :: x in Copies(r.s0, r.trash, id) && y in OutOf(r, at, id) ==> x.uid < y.uid
  {
  }

  lemma OutAndBack(r: Run, at: map<Loc, Loc>, id: string)
    ensures |AtOf(r, at, id)| == |OutOf(r, at, id)| + |BackOf(r, at, id)|
  {
    assert AtOf(r, at, id) == OutOf(r, at, id) + BackOf(r, at, id);
  }

  /** The copies of a message in Trash: those it had before, all older than the
      run's. */
  lemma TrashCopies(r: Run, s: Server, at: map<Loc, Loc>, id: string)
    requires Placed(r, s, at)
    ensures Copies(s, r.trash, id) == Copies(r.s0, r.trash, id) + OutOf(r, at, id)
    ensures forall x, y :: x in Copies(r.s0, r.trash, id) && y in OutOf(r, at, id) ==> x.uid < y.uid
    ensures |AtOf(r, at, id)| == |OutOf(r, at, id)| + |BackOf(r, at, id)|
  {
    hide Placed;
    OlderThanTaken(r, s, at, id);
    OutAndBack(r, at, id);
    forall l ensures l in Copies(s, r.trash, id) <==> l in Copies(r.s0, r.trash, id) || l in OutOf(r, at, id) {
      NowAt(r, s, at, l);
    }
  }

  /** In the log of a run every message wanted is wanted from Trash, for
      another folder. */
  lemma {:induction false} WantedFromTrash(r: Run, log: seq<Line>, confirmed: set<Loc>)
    requires LogOk(r, log)
    ensures var wants := WantsOf(log, r.account, confirmed);
      forall k <- wants :: k.dst == r.trash && wants[k].source != r.trash
  {
    if log != [] { WantedFromTrash(r, log[..|log| - 1], confirmed); }
  }

  /** What an undo chooses in Trash. */
  ghost predicate Chooses(r: Run, w: World, x: Site, chosen: map<Loc, Folder>) {
    var d := TermsAt(r, w, x);
    TermsOk(d) && Picked(d.wants, d.quota, w.server, r.trash, chosen, OfFolder(d.wants, r.trash))
  }

  /** What undo is due of a message are the run's copies in Trash: so many, or
      more but there are no others. */
  ghost predicate Balanced(r: Run, w: World, at: map<Loc, Loc>, x: Site, id: string) {
    var n, m := Due(r, w, x, id), |OutOf(r, at, id)|;
    n == m || (m < n && Copies(r.s0, r.trash, id) == {})
  }

  lemma ChosenCopies(r: Run, w: World, at: map<Loc, Loc>, x: Site, chosen: map<Loc, Folder>, id: string)
    requires Placed(r, w.server, at) && Witnessed(r, w.log, at.Values) && r.trash != NOWHERE && Chooses(r, w, x, chosen)
    ensures |OutOf(r, at, id)| <= Due(r, w, x, id) ==> OutOf(r, at, id) <= chosen.Keys
    ensures chosen.Keys * Copies(w.server, r.trash, id) == OutOf(r, at, id) <==> Balanced(r, w, at, x, id)
  {
    var d, k := TermsAt(r, w, x), Key(r.trash, id);
    assert LogOk(r, w.log);
    hide Placed, Witnessed, TermsOf, Due;
    QuotaIsDue(r, w, x, id);
    TrashCopies(r, w.server, at, id);
    var mine := chosen.Keys * Copies(w.server, r.trash, id);
    if k in d.wants {
      WantedCopies(r, w, d, chosen, k);
      NewestSplit(Copies(r.s0, r.trash, id), OutOf(r, at, id), d.quota[k], mine);
    } else {
      UnwantedCopies(r, w, d, chosen, k);
      NoneTaken(r, w, at, id);
    }
  }

  lemma NoneTaken(r: Run, w: World, at: map<Loc, Loc>, id: string)
    requires Placed(r, w.server, at) && Witnessed(r, w.log, at.Values) && IntentsOf(r, w.log, id) == {}
    ensures AtOf(r, at, id) == {} && OutOf(r, at, id) == {}
  {
    TakenCount(r, w, at, id);
    OutAndBack(r, at, id);
  }

  lemma WantedCopies(r: Run, w: World, d: Terms, chosen: map<Loc, Folder>, k: Key)
    requires TermsOk(d) && Picked(d.wants, d.quota, w.server, r.trash, chosen, OfFolder(d.wants, r.trash))
    requires k in d.wants && k.dst == r.trash
    ensures Newest(Copies(w.server, r.trash, k.id), d.quota[k], chosen.Keys * Copies(w.server, r.trash, k.id))
  {
    assert k in OfFolder(d.wants, r.trash);
  }

  lemma UnwantedCopies(r: Run, w: World, d: Terms, chosen: map<Loc, Folder>, k: Key)
    requires TermsOk(d) && Picked(d.wants, d.quota, w.server, r.trash, chosen, OfFolder(d.wants, r.trash))
    requires k !in d.wants && k.dst == r.trash
    ensures chosen.Keys * Copies(w.server, r.trash, k.id) == {}
  {
  }

  /** Undo chooses exactly the run's messages that are in Trash if and only if
      it is due exactly those of every Message-ID. */
  lemma ChosenExact(r: Run, w: World, at: map<Loc, Loc>, x: Site, chosen: map<Loc, Folder>)
    requires Placed(r, w.server, at) && Witnessed(r, w.log, at.Values) && r.trash != NOWHERE && Chooses(r, w, x, chosen)
    ensures (forall id :: |OutOf(r, at, id)| <= Due(r, w, x, id)) ==> Out(r, at) <= chosen.Keys
    ensures chosen.Keys == Out(r, at) <==> forall id :: Balanced(r, w, at, x, id)
  {
    hide Balanced, Chooses, Picked, Due, Placed, Witnessed;
    if forall id :: |OutOf(r, at, id)| <= Due(r, w, x, id) {
      forall t | t in Out(r, at) ensures t in chosen {
        OutHasId(r, w, at, t);
        ChosenCopies(r, w, at, x, chosen, r.s0.mail[at[t]].id);
      }
    }
    if chosen.Keys == Out(r, at) {
      forall id ensures Balanced(r, w, at, x, id) {
        ChosenCopies(r, w, at, x, chosen, id);
        OutCopies(r, w, at, id);
      }
    }
    if forall id :: Balanced(r, w, at, x, id) {
      forall t | t in Out(r, at) ensures t in chosen {
        OutHasId(r, w, at, t);
        ChosenCopies(r, w, at, x, chosen, r.s0.mail[at[t]].id);
        assert t in chosen.Keys * Copies(w.server, r.trash, r.s0.mail[at[t]].id);
      }
      forall l | l in chosen ensures l in Out(r, at) {
        ChosenInTrash(r, w, x, chosen, l);
        ChosenCopies(r, w, at, x, chosen, w.server.mail[l].id);
        assert l in chosen.Keys * Copies(w.server, r.trash, w.server.mail[l].id);
      }
    }
  }

  lemma OutHasId(r: Run, w: World, at: map<Loc, Loc>, t: Loc)
    requires Placed(r, w.server, at) && t in Out(r, at)
    ensures at[t] in r.s0.mail && t in OutOf(r, at, r.s0.mail[at[t]].id)
  {
    NowAt(r, w.server, at, t);
  }

  lemma OutCopies(r: Run, w: World, at: map<Loc, Loc>, id: string)
    requires Placed(r, w.server, at)
    ensures Out(r, at) * Copies(w.server, r.trash, id) == OutOf(r, at, id)
  {
    forall l ensures l in Out(r, at) * Copies(w.server, r.trash, id) <==> l in OutOf(r, at, id) {
      NowAt(r, w.server, at, l);
    }
  }

  lemma ChosenInTrash(r: Run, w: World, x: Site, chosen: map<Loc, Folder>, l: Loc)
    requires Chooses(r, w, x, chosen) && l in chosen
    ensures l in w.server.mail && l.folder == r.trash
  {
  }

  /** The server and the log are such that undo is due what the run took:
      every message is accounted for, undo can tell what moved, and it refuses
      no source folder. */
  ghost predicate Recoverable(r: Run, w: World, at: map<Loc, Loc>, x: Site) {
    && WorldOk(w) && Placed(r, w.server, at) && Witnessed(r, w.log, at.Values)
    && (forall id :: Clear(r, w.log, id)) && Permitted(r, w.log, x)
  }

  /** Undo refuses no folder the log takes messages from. */
  ghost predicate Permitted(r: Run, log: seq<Line>, x: Site) {
    r.trash != NOWHERE &&
    forall l <- Intents(log) :: !Refuses(x.lower, BlockedDestinations(x.lower, x.special), l.folder)
  }

  /** Whether undo, which forgets what it has restored, can mix up the run's
      copies of a message with others: not unless it has already restored some
      and Trash had others before the run. */
  ghost predicate Unmixed(r: Run, at: map<Loc, Loc>, id: string) {
    BackOf(r, at, id) == {} || Copies(r.s0, r.trash, id) == {}
  }

  lemma NotRefused(r: Run, w: World, x: Site, id: string)
    requires LogOk(r, w.log) && Permitted(r, w.log, x) && IntentsOf(r, w.log, id) != {}
    ensures !RefusesGoal(r, w.log, x, id)
  {
    hide LogOk, TermsOf, Due, Goal, Refuses, BlockedDestinations;
    QuotaIsDue(r, w, x, id);
  }

  /** What undo is due when it can recover: no less than is in Trash, and
      exactly that unless it can mix it up with other copies. */
  lemma RecoverableDue(r: Run, w: World, at: map<Loc, Loc>, x: Site, id: string)
    requires Recoverable(r, w, at, x)
    ensures |OutOf(r, at, id)| <= Due(r, w, x, id)
    ensures Copies(r.s0, r.trash, id) == {} ==> Balanced(r, w, at, x, id)
    ensures x.unchecked == {} ==> (Balanced(r, w, at, x, id) <==> Unmixed(r, at, id))
  {
    assert Clear(r, w.log, id);
    assert LogOk(r, w.log) && r.trash != NOWHERE;
    hide Placed, Clear, LogOk, Due, Copies, IntentsOf, Intents, Refuses;
    OutAndBack(r, at, id);
    if IntentsOf(r, w.log, id) == {} {
      QuotaIsDue(r, w, x, id);
      NoneTaken(r, w, at, id);
    } else {
      NotRefused(r, w, x, id);
      Entitled(r, w, at, x, id);
    }
  }

  /** Of what it can recover from, undo chooses every message of the run that
      is in Trash, and nothing else exactly when no message it has restored a
      copy of had copies in Trash before the run. */
  lemma ChosenOfRecoverable(r: Run, w: World, at: map<Loc, Loc>, x: Site, chosen: map<Loc, Folder>)
    requires Recoverable(r, w, at, x) && Chooses(r, w, x, chosen)
    ensures Out(r, at) <= chosen.Keys
    ensures x.unchecked == {} ==> (chosen.Keys == Out(r, at) <==> forall id :: Unmixed(r, at, id))
  {
    ChosenExact(r, w, at, x, chosen);
    hide Unmixed, Balanced, Due, Chooses;
    forall id ensures |OutOf(r, at, id)| <= Due(r, w, x, id)
      && (x.unchecked == {} ==> (Balanced(r, w, at, x, id) <==> Unmixed(r, at, id)))
    {
      RecoverableDue(r, w, at, x, id);
    }
  }

  /** Whether undo can tell the run's copies of a message in Trash from others,
      as can be checked before it: what it sees of them where they were
      recorded is as many as are there; or it sees fewer, and Trash has no
      copies but those that are not there. If it refuses the folder, none may
      have moved. */
  ghost predicate TellsApart(r: Run, w: World, x: Site, id: string) {
    var all, here, seen := IntentsOf(r, w.log, id), Here(r, w, id), Seen(r, w, x, id);
    if RefusesGoal(r, w.log, x, id) then here == all
    else |seen| == |here| || (|seen| < |here| && |Copies(w.server, r.trash, id)| + |here| == |all|)
  }

  /** With nothing restored yet, telling apart is what it takes. */
  lemma TellsApartBalances(r: Run, w: World, at: map<Loc, Loc>, x: Site, id: string)
    requires Placed(r, w.server, at) && Witnessed(r, w.log, at.Values) && Out(r, at) == at.Keys
    ensures TellsApart(r, w, x, id) <==> Balanced(r, w, at, x, id)
  {
    hide Placed, Witnessed, IntentsOf, Here, Seen, RefusesGoal;
    assert BackOf(r, at, id) == {} by { assert forall t <- at :: t in Out(r, at); }
    TakenCount(r, w, at, id);
    TrashCopies(r, w.server, at, id);
    HereIsPart(r, w, id);
    var older, out := Copies(r.s0, r.trash, id), OutOf(r, at, id);
    assert older !! out;
    assert |older + out| == |older| + |out|;
  }

  lemma HereIsPart(r: Run, w: World, id: string)
    ensures |Here(r, w, id)| <= |IntentsOf(r, w.log, id)|
    ensures |Here(r, w, id)| == |IntentsOf(r, w.log, id)| <==> Here(r, w, id) == IntentsOf(r, w.log, id)
  {
    SubsetCount(Here(r, w, id), IntentsOf(r, w.log, id));
  }
}
