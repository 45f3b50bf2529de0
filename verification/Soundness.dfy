/** What holds at every moment of a delete run on either path: UID MOVE, or
    COPY, STORE \Deleted and UID EXPUNGE. */
module Soundness {
  import opened Mailbox
  import opened Audit
  import opened Events
  import opened Moves
  import opened Uids
  import opened WriteAhead

  /** What the run started from, as a world. */
  ghost function Origin(r: Run): World {
    World(r.s0, map[], map[], [], 0)
  }

  /** The positions durable pending lines name. */
  ghost function Durable(w: World): set<Loc> {
    if w.synced <= |w.log| then Intents(w.log[..w.synced]) else {}
  }

  /** The positions durable done lines confirm. */
  ghost function Sealed(w: World): set<Loc> {
    if w.synced <= |w.log| then Confirmed(w.log[..w.synced]) else {}
  }

  /** The messages the run started with that are not as they were. */
  ghost function Touched(r: Run, w: World): set<Loc> {
    set l | l in r.s0.mail && !Untouched(Origin(r), w, l)
  }

  /** Nothing is touched but what is named, and of that nothing is lost; nothing
      has appeared outside Trash. */
  ghost predicate Spared(r: Run, w: World, named: set<Loc>) {
    && Kept(Origin(r), w, r.trash, named)
    && forall l <- w.server.mail :: l.folder != r.trash ==> l in r.s0.mail
  }

  ghost predicate AllGone(r: Run, w: World, locs: set<Loc>) {
    forall l <- locs :: l in r.s0.mail && l !in w.server.mail
  }

  /** The write-ahead guarantee, whatever the path.
      - Nothing is touched that a durable pending line does not name, and what
        is gone has its own copy in Trash.
      - What a done line confirms is gone.
      - What is touched and not confirmed lies in one batch: the pending lines
        since the last done line, at most 200 and all of one folder. */
  ghost predicate Ahead(r: Run, w: World) {
    && WorldOk(w) && LogOk(r, w.log)
    && Spared(r, w, Durable(w)) && AllGone(r, w, Confirmed(w.log))
    && Touched(r, w) <= Confirmed(w.log) + Open(w.log)
    && |Open(w.log)| <= MOVE_BATCH && OneFolder(Open(w.log))
  }

  /** What has arrived in Trash since the run started. */
  ghost function Arrivals(r: Run, w: World): set<Loc> {
    set t | t in w.server.mail && t.folder == r.trash && t !in r.s0.mail
  }

  /** The arrival t is the last copy made of a message the run started with. */
  ghost predicate Sourced(r: Run, w: World, t: Loc)
    requires t in w.server.mail
  {
    && t in w.came && w.came[t] in w.went && w.went[w.came[t]] == t
    && Original(r, w.came[t]) && w.server.mail[t].id == r.s0.mail[w.came[t]].id
  }

  ghost predicate HasArrived(r: Run, w: World, l: Loc) {
    l in w.went && w.went[l] in Arrivals(r, w) && w.went[l] in w.came && w.came[w.went[l]] == l
  }

  /** Folders and validity are those the run started with, and no UIDNEXT has
      gone back. */
  ghost predicate Grown(r: Run, s: Server) {
    && ServerOk(r.s0) && s.next.Keys == r.s0.next.Keys && s.validity == r.s0.validity
    && forall f <- s.next :: r.s0.next[f] <= s.next[f]
  }

  /** What the commands of a run can have left in Trash, complete or not: copies
      of messages of the run, one of each at most, younger than what Trash held;
      and a message in its place is as it was, but for a mark if it has one. */
  ghost predicate Landed(r: Run, w: World) {
    && Grown(r, w.server)
    && (forall t <- Arrivals(r, w) :: t.folder in r.s0.next && r.s0.next[t.folder] <= t.uid && Sourced(r, w, t))
    && forall l <- r.s0.mail :: l in w.server.mail ==>
         w.server.mail[l].id == r.s0.mail[l].id && (w.server.mail[l] != r.s0.mail[l] ==> HasArrived(r, w, l))
  }

  /** And on a server with MOVE, or whenever no batch is under way, the server is
      the one the run started from but for the messages that moved. */
  ghost predicate Sound(hasMove: bool, r: Run, w: World) {
    Ahead(r, w) && Landed(r, w) && (hasMove || Open(w.log) == {} ==> Inv(r, w))
  }

  /** So it was at every moment of es, and no command had acted on a message
      before a durable pending line named it. */
  ghost predicate SoundThrough(hasMove: bool, r: Run, w: World, es: History) {
    forall p :: Begins(p, es) ==> Sound(hasMove, r, Replay(w, p)) && Acted(p) <= Durable(Replay(w, p))
  }

  lemma {:induction false} LaterLog(w: World, es: History)
    requires w.synced <= |w.log|
    ensures var t := Replay(w, es);
      && w.log <= t.log && w.synced <= t.synced <= |t.log|
      && Durable(w) <= Durable(t) && Sealed(w) <= Sealed(t) && Confirmed(w.log) <= Confirmed(t.log)
      && Intents(w.log) <= Intents(t.log)
  {
    if es.Then? {
      LaterLog(w, es.past);
      LaterStep(Replay(w, es.past), es.e);
    }
  }

  lemma LaterStep(w: World, e: Event)
    requires w.synced <= |w.log|
    ensures var t := Step(w, e);
      && w.log <= t.log && w.synced <= t.synced <= |t.log|
      && Durable(w) <= Durable(t) && Sealed(w) <= Sealed(t) && Confirmed(w.log) <= Confirmed(t.log)
      && Intents(w.log) <= Intents(t.log)
  {
    if e.Wrote? {
      ReadSnoc(w.log, e.line);
      assert (w.log + [e.line])[..w.synced] == w.log[..w.synced];
    } else if e.Synced? {
      ReadPrefix(w.log, w.synced);
      assert w.log[..|w.log|] == w.log;
    }
  }

  lemma SoundStart(hasMove: bool, r: Run, w: World)
    requires Sound(hasMove, r, w)
    ensures SoundThrough(hasMove, r, w, Start)
  {
  }

  lemma SoundNow(hasMove: bool, r: Run, w: World, es: History)
    requires SoundThrough(hasMove, r, w, es)
    ensures Sound(hasMove, r, Replay(w, es)) && Acted(es) <= Durable(Replay(w, es))
  {
    assert Begins(es, es);
  }

  lemma SoundThroughLog(hasMove: bool, r: Run, w: World, es: History, e: Event)
    requires SoundThrough(hasMove, r, w, es) && (e.Wrote? || e.Synced?) && w.synced <= |w.log|
    requires Sound(hasMove, r, Step(Replay(w, es), e))
    ensures SoundThrough(hasMove, r, w, Then(es, e))
  {
    hide Sound, Durable;
    SoundNow(hasMove, r, w, es);
    LaterLog(w, es);
    LaterStep(Replay(w, es), e);
  }

  lemma SoundThroughAppend(hasMove: bool, r: Run, w: World, a: History, b: History)
    requires SoundThrough(hasMove, r, w, a) && SoundThrough(hasMove, r, Replay(w, a), b) && w.synced <= |w.log|
    ensures SoundThrough(hasMove, r, w, Append(a, b))
  {
    hide Sound, Durable, Sealed;
    SoundNow(hasMove, r, w, a);
    LaterLog(w, a);
    forall p | Begins(p, Append(a, b)) ensures Sound(hasMove, r, Replay(w, p)) && Acted(p) <= Durable(Replay(w, p)) {
      if !Begins(p, a) {
        var q := BeginsAppend(p, a, b);
        AppendReplay(w, a, q);
        AppendActed(a, q);
        LaterLog(Replay(w, a), q);
      }
    }
  }

  lemma SparedSame(r: Run, w: World, t: World, few: set<Loc>, more: set<Loc>)
    requires Spared(r, w, few) && few <= more && t.server == w.server && t.went == w.went && t.came == w.came
    ensures Spared(r, t, more) && Touched(r, t) == Touched(r, w)
  {
    forall l | l in r.s0.mail ensures Safe(Origin(r), t, r.trash, more, l) {
      assert Safe(Origin(r), w, r.trash, few, l);
    }
  }

  /** What is touched is named, and so not in Trash. */
  lemma TouchedNamed(r: Run, w: World)
    requires Ahead(r, w)
    ensures Touched(r, w) <= Durable(w)
    ensures forall l <- Durable(w) :: Original(r, l)
    ensures forall l <- Confirmed(w.log) :: l in Touched(r, w)
  {
    forall l | l in Durable(w) ensures Original(r, l) {
      DurableOk(r, w.log, w.synced);
      NamedOriginal(r, w.log[..w.synced], l);
    }
  }

  lemma {:induction false} NamedOriginal(r: Run, log: seq<Line>, l: Loc)
    requires LogOk(r, log) && l in Intents(log)
    ensures Original(r, l)
    decreases |log|
  {
    var k := IntentLine(r, log, l);
    NamedLine(r, log, k);
  }

  lemma {:induction false} NamedLine(r: Run, log: seq<Line>, k: nat)
    requires LogOk(r, log) && k < |log|
    ensures LineOk(r, log[k])
    decreases |log|
  {
    if k < |log| - 1 { NamedLine(r, log[..|log| - 1], k); }
  }

  /** One more line. */
  lemma AheadWrote(r: Run, w: World, l: Line)
    requires Ahead(r, w) && LogOk(r, w.log + [l]) && AllGone(r, w, Confirmed(w.log + [l]))
    requires Touched(r, w) <= Confirmed(w.log + [l]) + Open(w.log + [l])
    requires |Open(w.log + [l])| <= MOVE_BATCH && OneFolder(Open(w.log + [l]))
    ensures Ahead(r, Step(w, Wrote(l))) && Touched(r, Step(w, Wrote(l))) == Touched(r, w)
  {
    hide Spared, Touched, LogOk, Open, Confirmed;
    var t := Step(w, Wrote(l));
    assert t.log[..t.synced] == w.log[..w.synced];
    SparedSame(r, w, t, Durable(w), Durable(t));
  }

  lemma AheadWroteOther(r: Run, w: World, l: Line)
    requires Ahead(r, w) && l.action != Move
    ensures Ahead(r, Step(w, Wrote(l)))
  {
    hide Spared, Touched;
    LogSnoc(r, w.log, l);
    ReadSnoc(w.log, l);
    AheadWrote(r, w, l);
  }

  lemma AheadSynced(r: Run, w: World)
    requires Ahead(r, w)
    ensures Ahead(r, Step(w, Synced)) && Touched(r, Step(w, Synced)) == Touched(r, w)
  {
    hide Spared, Touched, LogOk, Open, Confirmed;
    var t := Step(w, Synced);
    LaterStep(w, Synced);
    SparedSame(r, w, t, Durable(w), Durable(t));
  }

  /** No message that is there has been touched: no batch is under way. */
  ghost predicate Settled(r: Run, w: World) {
    Touched(r, w) <= Confirmed(w.log)
  }

  /** Then a message outside Trash is one the run started with, and as it was. */
  lemma PresentUntouched(r: Run, w: World, l: Loc)
    requires Ahead(r, w) && Settled(r, w) && l in w.server.mail && l.folder != r.trash
    ensures Original(r, l) && Untouched(Origin(r), w, l) && 0 < l.uid
  {
    assert l !in Confirmed(w.log);
  }

  lemma AheadWroteIntent(r: Run, w: World, l: Line)
    requires Ahead(r, w) && Settled(r, w) && IntentFor(r, w.server, l.src, l) && l.src != NOWHERE && l.src != r.trash
    requires Loc(l.src, l.uid) !in Intents(w.log)
    requires |Open(w.log)| < MOVE_BATCH && forall x <- Open(w.log) :: x.folder == l.src
    ensures Ahead(r, Step(w, Wrote(l))) && Settled(r, Step(w, Wrote(l)))
  {
    PresentUntouched(r, w, Loc(l.src, l.uid));
    AheadWroteNamed(r, w, l);
  }

  lemma AheadWroteNamed(r: Run, w: World, l: Line)
    requires Ahead(r, w) && Settled(r, w) && IsIntent(l) && LineOk(r, l) && Loc(l.src, l.uid) !in Intents(w.log)
    requires |Open(w.log)| < MOVE_BATCH && forall x <- Open(w.log) :: x.folder == l.src
    ensures Ahead(r, Step(w, Wrote(l))) && Settled(r, Step(w, Wrote(l)))
  {
    hide Spared, Touched, AllGone, LineOk;
    LogSnoc(r, w.log, l);
    ReadSnoc(w.log, l);
    AheadWrote(r, w, l);
  }

  lemma AheadWroteDone(r: Run, w: World, l: Line)
    requires Ahead(r, w) && IsDone(l) && LineOk(r, l)
    requires Open(w.log) <= LocsOf(l.src, l.uids) && AllGone(r, w, LocsOf(l.src, l.uids))
    ensures Ahead(r, Step(w, Wrote(l))) && Open(w.log + [l]) == {}
  {
    hide Spared, Touched;
    LogSnoc(r, w.log, l);
    ReadSnoc(w.log, l);
    AheadWrote(r, w, l);
  }

  /** Events confined to messages of src leave alone where others went and
      where what was there came from. */
  lemma {:induction false} TrailsKept(w: World, es: History, src: Folder, dst: Folder, locs: set<Loc>)
    requires WorldOk(w) && LegalRun(w, es) && Confined(es, src, dst, locs)
    ensures var t := Replay(w, es);
      && WorldOk(t) && t.log == w.log && t.synced == w.synced && t.server.next.Keys == w.server.next.Keys
      && (forall f <- w.server.next :: w.server.next[f] <= t.server.next[f])
      && (forall l <- w.went :: l !in locs ==> l in t.went && t.went[l] == w.went[l])
      && (forall l <- w.came :: l in w.server.mail ==> l in t.came && t.came[l] == w.came[l])
  {
    if es.Then? {
      TrailsKept(w, es.past, src, dst, locs);
      var v := Replay(w, es.past);
      StepOk(v, es.e);
      hide ServerOk, Confined, LegalRun;
      TrailStep(w, v, es.e);
    }
  }

  /** An arrival is at a position that was never in use. */
  lemma TrailStep(w: World, v: World, e: Event)
    requires ServerOk(w.server) && Legal(v.server, e) && v.server.next.Keys == w.server.next.Keys
    requires forall f <- w.server.next :: w.server.next[f] <= v.server.next[f]
    ensures var t := Step(v, e);
      && (forall f <- w.server.next :: w.server.next[f] <= t.server.next[f])
      && (forall l <- v.went :: (e.Wrote? || e.Synced? || l != e.at) ==> l in t.went && t.went[l] == v.went[l])
      && (forall l <- v.came :: l in w.server.mail ==> l in t.came && t.came[l] == v.came[l])
  {
  }

  lemma {:induction false} PrefixConfined(w: World, p: History, es: History, src: Folder, dst: Folder, locs: set<Loc>)
    requires Begins(p, es) && LegalRun(w, es) && Confined(es, src, dst, locs)
    ensures LegalRun(w, p) && Confined(p, src, dst, locs) && Acted(p) <= locs
    ensures Orderly(es) ==> Orderly(p)
  {
    if p != es { PrefixConfined(w, p, es.past, src, dst, locs); } else { ConfinedActed(es, src, dst, locs); }
  }

  lemma {:induction false} ConfinedActed(es: History, src: Folder, dst: Folder, locs: set<Loc>)
    requires Confined(es, src, dst, locs)
    ensures Acted(es) <= locs
  {
    if es.Then? { ConfinedActed(es.past, src, dst, locs); }
  }

  /** Where commands on recorded messages of src can leave the world. */
  ghost predicate Carried(w: World, w': World, es: History, src: Folder, dst: Folder, locs: set<Loc>) {
    && LegalRun(w, es) && Confined(es, src, dst, locs) && w' == Replay(w, es) && Kept(w, w', dst, locs)
  }

  lemma CarriedOne(r: Run, w: World, w': World, es: History, src: Folder, locs: set<Loc>, l: Loc)
    requires Ahead(r, w) && Settled(r, w) && Carried(w, w', es, src, r.trash, locs) && src != r.trash
    requires locs <= Durable(w) && (forall x <- locs :: x.folder == src && x in w.server.mail) && l in r.s0.mail
    ensures Safe(Origin(r), w', r.trash, Durable(w), l)
    ensures l in Touched(r, w') ==> l in Touched(r, w) || l in locs
  {
    TouchedNamed(r, w);
    TrailsKept(w, es, src, r.trash, locs);
    hide Durable, Confirmed, LogOk, Replay, Confined, LegalRun;
    if l in Touched(r, w) {
      CarriedGone(r, w, w', locs, l);
    } else {
      CarriedFresh(r, w, w', locs, l);
    }
  }

  /** A message gone before: its copy stays. */
  lemma CarriedGone(r: Run, w: World, w': World, locs: set<Loc>, l: Loc)
    requires Spared(r, w, Durable(w)) && l in r.s0.mail && l in Touched(r, w) && l in Durable(w) && l !in w.server.mail
    requires Kept(w, w', r.trash, locs) && forall x <- locs :: x.folder != r.trash && x in w.server.mail
    requires forall x <- w.went :: x !in locs ==> x in w'.went && w'.went[x] == w.went[x]
    requires forall x <- w.came :: x in w.server.mail ==> x in w'.came && w'.came[x] == w.came[x]
    ensures Safe(Origin(r), w', r.trash, Durable(w), l)
  {
    assert Safe(Origin(r), w, r.trash, Durable(w), l);
    assert Safe(w, w', r.trash, locs, w.went[l]);
  }

  /** A message not touched before: what the commands leave of it. */
  lemma CarriedFresh(r: Run, w: World, w': World, locs: set<Loc>, l: Loc)
    requires Spared(r, w, Durable(w)) && l in r.s0.mail && l !in Touched(r, w)
    requires Touched(r, w) <= Durable(w) && forall x <- Durable(w) :: Original(r, x)
    requires Kept(w, w', r.trash, locs) && locs <= Durable(w)
    ensures Safe(Origin(r), w', r.trash, Durable(w), l)
    ensures l in Touched(r, w') ==> l in locs
  {
    assert Untouched(Origin(r), w, l);
    assert Safe(w, w', r.trash, locs, l);
    if !Untouched(w, w', l) && HasCopy(w, w', r.trash, l) {
      var t := w'.went[l];
      assert t in r.s0.mail ==> t !in Touched(r, w);
    }
  }

  lemma SparedCarried(r: Run, w: World, w': World, es: History, src: Folder, locs: set<Loc>)
    requires Ahead(r, w) && Settled(r, w) && Carried(w, w', es, src, r.trash, locs) && src != r.trash
    requires locs <= Durable(w) && forall x <- locs :: x.folder == src && x in w.server.mail
    ensures Spared(r, w', Durable(w)) && Touched(r, w') <= Touched(r, w) + locs
  {
    hide Ahead, Settled, Safe;
    forall l | l in r.s0.mail
      ensures Safe(Origin(r), w', r.trash, Durable(w), l)
      ensures l in Touched(r, w') ==> l in Touched(r, w) || l in locs
    {
      CarriedOne(r, w, w', es, src, locs, l);
    }
    NothingAppears(r, w, w', es, src, locs);
    hide Touched, Durable, Carried;
    assert Kept(Origin(r), w', r.trash, Durable(w));
  }

  lemma NothingAppears(r: Run, w: World, w': World, es: History, src: Folder, locs: set<Loc>)
    requires Ahead(r, w) && Carried(w, w', es, src, r.trash, locs)
    ensures forall l <- w'.server.mail :: l.folder != r.trash ==> l in r.s0.mail && l in w.server.mail
  {
    hide Kept, LogOk;
    ArrivalsOnly(w, es, src, r.trash, locs);
  }

  lemma GoneStays(r: Run, w: World, w': World, es: History, src: Folder, locs: set<Loc>)
    requires Ahead(r, w) && Carried(w, w', es, src, r.trash, locs)
    ensures AllGone(r, w', Confirmed(w.log))
  {
    TouchedNamed(r, w);
    NothingAppears(r, w, w', es, src, locs);
    hide Kept, LogOk, Carried, Touched, Durable, Confirmed;
    assert forall l <- Confirmed(w.log) :: Original(r, l);
  }

  /** Commands on recorded messages keep the guarantee, at whatever moment they
      are stopped. */
  lemma AheadCarried(r: Run, w: World, w': World, es: History, src: Folder, locs: set<Loc>)
    requires Ahead(r, w) && Settled(r, w) && Carried(w, w', es, src, r.trash, locs) && src != r.trash
    requires locs <= Durable(w) && locs == Open(w.log) && forall x <- locs :: x.folder == src && x in w.server.mail
    ensures Ahead(r, w') && Durable(w') == Durable(w) && w'.log == w.log && w'.synced == w.synced
  {
    SparedCarried(r, w, w', es, src, locs);
    GoneStays(r, w, w', es, src, locs);
    CarriedLog(w, w', es, src, r.trash, locs);
    hide LogOk, Confirmed, Open, Intents, Carried, Spared, Touched, AllGone, ServerOk;
  }

  lemma CarriedLog(w: World, w': World, es: History, src: Folder, dst: Folder, locs: set<Loc>)
    requires WorldOk(w) && Carried(w, w', es, src, dst, locs)
    ensures WorldOk(w') && w'.log == w.log && w'.synced == w.synced && Durable(w') == Durable(w)
  {
    TrailsKept(w, es, src, dst, locs);
  }

  /** Part way through commands on the messages locs: what arrived from those is
      what es copied. */
  ghost predicate Landing(r: Run, v: World, es: History, locs: set<Loc>) {
    && Landed(r, v) && Sources(es) <= locs
    && (forall t <- Arrivals(r, v) :: v.came[t] in locs ==> v.came[t] in Sources(es))
    && (forall l <- Sources(es) :: HasArrived(r, v, l))
    && forall l <- locs :: l in v.server.mail ==>
         l in r.s0.mail && v.server.mail[l].id == r.s0.mail[l].id && (v.server.mail[l] != r.s0.mail[l] ==> l in Sources(es))
  }

  lemma LandingStep(r: Run, v: World, es: History, e: Event, kind: Kind, src: Folder, locs: set<Loc>)
    requires Landing(r, v, es, locs) && WorldOk(v) && Legal(v.server, e) && OfKind(e, kind, src, r.trash)
    requires Orderly(Then(es, e)) && e.at in locs && src != r.trash && forall l <- locs :: Original(r, l) && l.folder == src
    ensures Landing(r, Step(v, e), Then(es, e), locs)
  {
    GrownStep(r, v, e);
    match kind {
      case Moving => LandingArrives(r, v, es, e, src, locs);
      case Copying => LandingArrives(r, v, es, e, src, locs);
      case _ => LandingStays(r, v, es, e, src, locs);
    }
  }

  lemma GrownStep(r: Run, v: World, e: Event)
    requires Grown(r, v.server) && WorldOk(v)
    ensures Grown(r, Step(v, e).server)
  {
    StepOk(v, e);
  }

  lemma LandingArrives(r: Run, v: World, es: History, e: Event, src: Folder, locs: set<Loc>)
    requires Landing(r, v, es, locs) && WorldOk(v) && Legal(v.server, e) && Arrives(e) && e.to.folder == r.trash
    requires Grown(r, Step(v, e).server) && e.at.folder == src
    requires Orderly(Then(es, e)) && e.at in locs && src != r.trash && forall l <- locs :: Original(r, l) && l.folder == src
    ensures Landing(r, Step(v, e), Then(es, e), locs)
  {
    var t := Step(v, e);
    ArrivesOnce(r, v, e);
    OneArrived(r, v, t, e, es, locs);
    hide Grown, ServerOk, Legal, Step, Sourced, HasArrived, Arrivals, OneArrival;
    LandedThere(r, t, Arrivals(r, v) + {e.to});
  }

  /** What an arrival leaves as it was, and what it adds. */
  lemma OneArrived(r: Run, v: World, t: World, e: Event, es: History, locs: set<Loc>)
    requires Landing(r, v, es, locs) && OneArrival(r, v, t, e) && e.at in locs && e.at !in Sources(es)
    requires forall l <- locs :: Original(r, l)
    ensures Arrivals(r, t) == Arrivals(r, v) + {e.to}
    ensures forall x <- Arrivals(r, t) ::
              && x in t.server.mail && x.folder in r.s0.next && r.s0.next[x.folder] <= x.uid && Sourced(r, t, x)
              && (t.came[x] in locs ==> t.came[x] in Sources(es) + {e.at})
    ensures forall l <- Sources(es) + {e.at} :: HasArrived(r, t, l)
    ensures forall l <- r.s0.mail :: l in t.server.mail ==>
              t.server.mail[l].id == r.s0.mail[l].id && (t.server.mail[l] != r.s0.mail[l] ==> HasArrived(r, t, l))
    ensures forall l <- locs :: l in t.server.mail ==>
              l in r.s0.mail && t.server.mail[l].id == r.s0.mail[l].id && (t.server.mail[l] != r.s0.mail[l] ==> l in Sources(es))
  {
    hide Grown;
    forall x | x in Arrivals(r, v) ensures x in t.server.mail && Sourced(r, t, x) && t.came[x] == v.came[x] != e.at {
      assert Sourced(r, v, x);
    }
    forall l | l != e.at && HasArrived(r, v, l) ensures HasArrived(r, t, l) {
    }
    assert HasArrived(r, t, e.at) && Sourced(r, t, e.to);
    hide Sourced, HasArrived, Arrivals;
  }

  /** The one arrival is at a position never used before. */
  ghost predicate OneArrival(r: Run, v: World, t: World, e: Event) {
    && Arrives(e) && e.to.folder == r.trash && e.at in v.server.mail && e.at.folder != r.trash
    && Arrivals(r, t) == Arrivals(r, v) + {e.to} && e.to !in v.server.mail && e.to !in Arrivals(r, v)
    && e.to.folder in r.s0.next && r.s0.next[e.to.folder] <= e.to.uid
    && (forall l <- v.server.mail :: l != e.at ==> l in t.server.mail && t.server.mail[l] == v.server.mail[l])
    && (forall l <- t.server.mail :: l == e.to || l in v.server.mail)
    && (e.at in t.server.mail ==> t.server.mail[e.at] == v.server.mail[e.at])
    && e.to in t.server.mail && t.server.mail[e.to] == v.server.mail[e.at] && e.to !in r.s0.mail
    && t.came == v.came[e.to := e.at] && t.went == v.went[e.at := e.to]
  }

  lemma ArrivesOnce(r: Run, v: World, e: Event)
    requires Landed(r, v) && WorldOk(v) && Legal(v.server, e) && Arrives(e) && e.to.folder == r.trash && e.at.folder != r.trash
    ensures OneArrival(r, v, Step(v, e), e)
  {
    hide Sourced, HasArrived;
  }

  lemma LandedThere(r: Run, t: World, arrivals: set<Loc>)
    requires Grown(r, t.server) && arrivals == Arrivals(r, t)
    requires forall x <- arrivals :: x in t.server.mail && x.folder in r.s0.next && r.s0.next[x.folder] <= x.uid && Sourced(r, t, x)
    requires forall l <- r.s0.mail :: l in t.server.mail ==>
              t.server.mail[l].id == r.s0.mail[l].id && (t.server.mail[l] != r.s0.mail[l] ==> HasArrived(r, t, l))
    ensures Landed(r, t)
  {
  }

  /** Marking or expunging one message outside Trash. */
  ghost predicate OneChange(r: Run, v: World, t: World, e: Event) {
    && (e.Flagged? || e.Expunged?) && e.at.folder != r.trash && t.came == v.came && t.went == v.went
    && Arrivals(r, t) == Arrivals(r, v)
    && (forall l <- v.server.mail :: l != e.at ==> l in t.server.mail && t.server.mail[l] == v.server.mail[l])
    && (forall l <- t.server.mail :: l in v.server.mail)
    && (e.at in t.server.mail ==> e.Flagged? && t.server.mail[e.at].id == v.server.mail[e.at].id)
  }

  lemma ChangesOne(r: Run, v: World, e: Event)
    requires Legal(v.server, e) && (e.Flagged? || e.Expunged?) && e.at.folder != r.trash
    ensures OneChange(r, v, Step(v, e), e)
  {
  }

  lemma LandingStays(r: Run, v: World, es: History, e: Event, src: Folder, locs: set<Loc>)
    requires Landing(r, v, es, locs) && Legal(v.server, e) && (e.Flagged? || e.Expunged?)
    requires Grown(r, Step(v, e).server) && e.at.folder == src
    requires Orderly(Then(es, e)) && e.at in locs && src != r.trash && forall l <- locs :: Original(r, l) && l.folder == src
    ensures Landing(r, Step(v, e), Then(es, e), locs)
  {
    var t := Step(v, e);
    ChangesOne(r, v, e);
    hide Grown, Legal, Step, ServerOk, Sourced, HasArrived, Arrivals, OneChange;
    OneChanged(r, v, t, e, es, locs);
    LandedThere(r, t, Arrivals(r, v));
  }

  lemma OneChanged(r: Run, v: World, t: World, e: Event, es: History, locs: set<Loc>)
    requires Landing(r, v, es, locs) && OneChange(r, v, t, e) && e.at in locs && (e.Flagged? ==> e.at in Sources(es))
    requires forall l <- locs :: Original(r, l)
    ensures Arrivals(r, t) == Arrivals(r, v) && t.came == v.came
    ensures forall x <- Arrivals(r, t) :: x in t.server.mail && Sourced(r, t, x)
    ensures forall l <- Sources(es) :: HasArrived(r, t, l)
    ensures forall l <- r.s0.mail :: l in t.server.mail ==>
              t.server.mail[l].id == r.s0.mail[l].id && (t.server.mail[l] != r.s0.mail[l] ==> HasArrived(r, t, l))
    ensures forall l <- locs :: l in t.server.mail ==>
              l in r.s0.mail && t.server.mail[l].id == r.s0.mail[l].id && (t.server.mail[l] != r.s0.mail[l] ==> l in Sources(es))
  {
    hide Grown;
    forall x | x in Arrivals(r, v) ensures x in t.server.mail && Sourced(r, t, x) {
      assert Sourced(r, v, x);
    }
    forall l | HasArrived(r, v, l) ensures HasArrived(r, t, l) {
    }
    hide Sourced, HasArrived, Arrivals;
  }

  lemma {:induction false} LandingRun(r: Run, w: World, es: History, src: Folder, locs: set<Loc>)
    requires Landing(r, w, Start, locs) && WorldOk(w) && LegalRun(w, es) && Confined(es, src, r.trash, locs) && Orderly(es)
    requires src != r.trash && forall l <- locs :: Original(r, l) && l.folder == src
    ensures Landing(r, Replay(w, es), es, locs) && WorldOk(Replay(w, es))
  {
    hide Landing;
    if es.Then? {
      LandingRun(r, w, es.past, src, locs);
      var v := Replay(w, es.past);
      var kind :| OfKind(es.e, kind, src, r.trash);
      StepOk(v, es.e);
      LandingStep(r, v, es.past, es.e, kind, src, locs);
    }
  }

  /** When commands on the messages locs may start: those are as they were, and
      none of them has a copy. */
  lemma LandingStart(r: Run, w: World, locs: set<Loc>)
    requires Landed(r, w) && Ahead(r, w) && Settled(r, w) && Inv(r, w)
    requires forall l <- locs :: l in w.server.mail && l.folder != r.trash
    ensures Landing(r, w, Start, locs) && forall l <- locs :: Original(r, l)
  {
    forall l | l in locs ensures Original(r, l) && Untouched(Origin(r), w, l) {
      PresentUntouched(r, w, l);
    }
    forall t | t in Arrivals(r, w) ensures w.came[t] !in locs {
      assert w.came[t] in w.came.Values;
      CameGone(r, w);
    }
  }

  lemma LandedCarried(r: Run, w: World, es: History, src: Folder, locs: set<Loc>)
    requires Landing(r, w, Start, locs) && WorldOk(w) && LegalRun(w, es) && Confined(es, src, r.trash, locs) && Orderly(es)
    requires src != r.trash && forall l <- locs :: Original(r, l) && l.folder == src
    ensures Landed(r, Replay(w, es))
  {
    LandingRun(r, w, es, src, locs);
  }

  lemma LandedSame(r: Run, w: World, t: World)
    requires Landed(r, w) && t.server == w.server && t.came == w.came && t.went == w.went
    ensures Landed(r, t)
  {
    assert Arrivals(r, t) == Arrivals(r, w);
    forall x | x in Arrivals(r, w) ensures Sourced(r, t, x) {
      assert Sourced(r, w, x);
    }
  }

  lemma LandedLogged(r: Run, w: World, e: Event)
    requires Landed(r, w) && (e.Wrote? || e.Synced?)
    ensures Landed(r, Step(w, e))
  {
    hide Landed;
    LandedSame(r, w, Step(w, e));
  }

  /** The same of every moment. */
  lemma SoundCarried(hasMove: bool, r: Run, w: World, es: History, src: Folder, locs: set<Loc>)
    requires Ahead(r, w) && Settled(r, w) && LegalRun(w, es) && Confined(es, src, r.trash, locs)
    requires KeptThrough(w, w, es, r.trash, locs) && src != r.trash && locs != {}
    requires locs <= Durable(w) && locs == Open(w.log) && forall x <- locs :: x.folder == src && x in w.server.mail
    requires Landing(r, w, Start, locs) && Orderly(es) && forall l <- locs :: Original(r, l)
    requires hasMove ==> InvThrough(r, w, es)
    ensures SoundThrough(hasMove, r, w, es)
  {
    hide Sound, Ahead, Settled, Inv, Durable, Confined, LegalRun, KeptThrough, InvThrough, Landing, Orderly;
    forall p | Begins(p, es) ensures Sound(hasMove, r, Replay(w, p)) && Acted(p) <= Durable(Replay(w, p)) {
      CarriedMoment(hasMove, r, w, es, src, locs, p);
    }
  }

  lemma CarriedMoment(hasMove: bool, r: Run, w: World, es: History, src: Folder, locs: set<Loc>, p: History)
    requires Ahead(r, w) && Settled(r, w) && LegalRun(w, es) && Confined(es, src, r.trash, locs)
    requires KeptThrough(w, w, es, r.trash, locs) && src != r.trash && locs != {}
    requires locs <= Durable(w) && locs == Open(w.log) && forall x <- locs :: x.folder == src && x in w.server.mail
    requires Landing(r, w, Start, locs) && Orderly(es) && forall l <- locs :: Original(r, l)
    requires hasMove ==> InvThrough(r, w, es)
    requires Begins(p, es)
    ensures Sound(hasMove, r, Replay(w, p)) && Acted(p) <= Durable(Replay(w, p))
  {
    WorldOfAhead(r, w);
    hide Ahead, Settled, Inv, Durable, Confined, LegalRun, Kept, Landed, Landing, Orderly, WorldOk;
    PrefixConfined(w, p, es, src, r.trash, locs);
    AheadCarried(r, w, Replay(w, p), p, src, locs);
    LandedCarried(r, w, p, src, locs);
  }

  lemma {:induction false} SoundLogsOnly(hasMove: bool, r: Run, w: World, es: History)
    requires LogsOnly(es) && Sound(hasMove, r, w)
    ensures SoundThrough(hasMove, r, w, es)
  {
    SoundStart(hasMove, r, w);
    hide Ahead, Landed, Inv, SoundThrough;
    if es.Then? {
      SoundLogsOnly(hasMove, r, w, es.past);
      SoundNow(hasMove, r, w, es.past);
      var v, l := Replay(w, es.past), es.e.line;
      AheadWroteOther(r, v, l);
      LandedLogged(r, v, es.e);
      ReadSnoc(v.log, l);
      if hasMove || Open(v.log) == {} { InvWroteOther(r, v, l); }
      AheadOrdered(r, w);
      SoundThroughLog(hasMove, r, w, es.past, es.e);
    }
  }

  lemma AheadOrdered(r: Run, w: World)
    requires Ahead(r, w)
    ensures w.synced <= |w.log|
  {
  }

  /** Writing the pending lines of one batch. */
  lemma {:induction false} SoundIntends(hasMove: bool, r: Run, w: World, src: Folder, es: History)
    requires Intends(r, w.server, src, es) && Sound(hasMove, r, w) && Inv(r, w) && Open(w.log) == {}
    requires Named(es) !! Intents(w.log) && |Named(es)| <= MOVE_BATCH && src != r.trash && src != NOWHERE
    ensures SoundThrough(hasMove, r, w, es) && Settled(r, Replay(w, es))
  {
    SoundStart(hasMove, r, w);
    hide Sound, Ahead, Inv, SoundThrough, Settled, IntentFor;
    if es.Then? {
      assert Named(es) == Named(es.past) + {Loc(src, es.e.line.uid)};
      SoundIntends(hasMove, r, w, src, es.past);
      SoundNow(hasMove, r, w, es.past);
      IntendsKeeps(r, w, src, es.past);
      InvIntended(r, w, src, es);
      SoundIntent(hasMove, r, Replay(w, es.past), es.e.line);
      SoundOrdered(hasMove, r, w);
      SoundThroughLog(hasMove, r, w, es.past, es.e);
    } else {
      SettledStart(hasMove, r, w);
    }
  }

  lemma InvIntended(r: Run, w: World, src: Folder, es: History)
    requires Intends(r, w.server, src, es) && Inv(r, w) && Open(w.log) == {}
    requires Named(es) !! Intents(w.log) && |Named(es)| <= MOVE_BATCH && src != r.trash && src != NOWHERE
    ensures Inv(r, Replay(w, es))
  {
    InvThroughStart(r, w);
    hide Inv, InvThrough, Intends, Named;
    IntendsInv(r, w, src, es);
    InvNow(r, w, es);
  }

  lemma SoundIntent(hasMove: bool, r: Run, w: World, l: Line)
    requires Sound(hasMove, r, w) && Settled(r, w) && IntentFor(r, w.server, l.src, l) && l.src != NOWHERE && l.src != r.trash
    requires Loc(l.src, l.uid) !in Intents(w.log)
    requires |Open(w.log)| < MOVE_BATCH && forall x <- Open(w.log) :: x.folder == l.src
    requires Inv(r, Step(w, Wrote(l)))
    ensures Sound(hasMove, r, Step(w, Wrote(l))) && Settled(r, Step(w, Wrote(l)))
  {
    hide Ahead, Landed, Inv, Settled, IntentFor;
    AheadWroteIntent(r, w, l);
    LandedLogged(r, w, Wrote(l));
  }

  lemma SoundOrdered(hasMove: bool, r: Run, w: World)
    requires Sound(hasMove, r, w)
    ensures w.synced <= |w.log|
  {
    AheadOrdered(r, w);
  }

  lemma SettledStart(hasMove: bool, r: Run, w: World)
    requires Sound(hasMove, r, w) && Open(w.log) == {}
    ensures Settled(r, w)
  {
  }

  lemma SoundSynced(hasMove: bool, r: Run, w: World, es: History)
    requires SoundThrough(hasMove, r, w, es) && w.synced <= |w.log|
    ensures SoundThrough(hasMove, r, w, Then(es, Synced))
    ensures Touched(r, Replay(w, Then(es, Synced))) == Touched(r, Replay(w, es))
  {
    SoundNow(hasMove, r, w, es);
    var v := Replay(w, es);
    AheadSynced(r, v);
    LandedLogged(r, v, Synced);
    if hasMove || Open(v.log) == {} { InvSynced(r, v); }
    hide Ahead, Landed, Inv, SoundThrough;
    SoundThroughLog(hasMove, r, w, es, Synced);
  }

  lemma SameInv(r: Run, w: World, t: World)
    requires Inv(r, w) && t.server == w.server && t.came == w.came && t.log == w.log && t.synced == w.synced
    ensures Inv(r, t)
  {
  }

  lemma CameGone(r: Run, w: World)
    requires Inv(r, w)
    ensures AllGone(r, w, w.came.Values)
  {
    forall l | l in w.came.Values ensures l in r.s0.mail && l !in w.server.mail {
      var t :| t in w.came && w.came[t] == l;
    }
  }

  /** A batch on its way: m is what happened, moves the UID MOVE it amounts to. */
  ghost predicate Transit(hasMove: bool, w: World, src: Folder, dst: Folder, locs: set<Loc>, m: History,
      moves: History, done: bool) {
    && LegalRun(w, m) && Confined(m, src, dst, locs) && KeptThrough(w, w, m, dst, locs) && Orderly(m)
    && (hasMove ==> moves == m)
    && (done || hasMove ==>
          && IsCommand(moves, Moving, src, dst) && LegalRun(w, moves) && Acted(moves) <= locs
          && Replay(w, moves).server == Replay(w, m).server && Replay(w, moves).came == Replay(w, m).came)
    && (done ==> Acted(moves) == locs)
  }

  lemma SoundTransit(hasMove: bool, r: Run, w: World, src: Folder, locs: set<Loc>, m: History, moves: History, done: bool)
    requires Transit(hasMove, w, src, r.trash, locs, m, moves, done)
    requires Ahead(r, w) && Landed(r, w) && Inv(r, w) && Settled(r, w) && src != r.trash && locs != {}
    requires locs <= Durable(w) && locs == Open(w.log) && forall x <- locs :: x.folder == src && x in w.server.mail
    ensures SoundThrough(hasMove, r, w, m) && Replay(w, m).log == w.log
    ensures done ==> var t := Replay(w, m); Inv(r, t) && AllGone(r, t, locs) && locs <= t.came.Values
  {
    InvThroughStart(r, w);
    AheadOrdered(r, w);
    WorldOfAhead(r, w);
    LandingStart(r, w, locs);
    hide Ahead, Inv, InvThrough, Settled, Confined, LegalRun, KeptThrough, WorldOk, Landed, Landing, Orderly;
    if done || hasMove { InvMoveRun(r, w, moves, src); }
    SoundCarried(hasMove, r, w, m, src, locs);
    TrailsKept(w, m, src, r.trash, locs);
    if done {
      InvNow(r, w, moves);
      SameInv(r, Replay(w, moves), Replay(w, m));
      CameGone(r, Replay(w, m));
    }
  }

  lemma WorldOfAhead(r: Run, w: World)
    requires Ahead(r, w)
    ensures WorldOk(w)
  {
  }

  /** Every message that is not as it was when the run started was outside
      Trash, and a durable pending line has its folder, UID and Message-ID; if
      it is gone, it has a copy of its own in Trash. */
  lemma TouchedIsRecorded(r: Run, w: World, at: Loc) returns (k: nat)
    requires Ahead(r, w) && at in r.s0.mail && !Untouched(Origin(r), w, at)
    ensures at.folder != r.trash && k < w.synced <= |w.log| && IsIntent(w.log[k]) && Loc(w.log[k].src, w.log[k].uid) == at
    ensures w.log[k].id == r.s0.mail[at].id != ""
    ensures at !in w.server.mail ==> HasCopy(Origin(r), w, r.trash, at)
  {
    TouchedNamed(r, w);
    assert at in Touched(r, w);
    assert Safe(Origin(r), w, r.trash, Durable(w), at);
    DurableOk(r, w.log, w.synced);
    k := IntentLine(r, w.log[..w.synced], at);
    assert w.log[k] == w.log[..w.synced][k];
  }

  /** Every message a done line confirms is gone from its place; what is touched
      and not confirmed is at most one batch, of one folder. */
  lemma ConfirmedIsGone(r: Run, w: World)
    requires Ahead(r, w)
    ensures forall l <- Confirmed(w.log) :: l in r.s0.mail && l !in w.server.mail
    ensures |Touched(r, w) - Confirmed(w.log)| <= MOVE_BATCH && OneFolder(Touched(r, w) - Confirmed(w.log))
  {
    hide Touched, Spared, LogOk;
    SubsetCount(Touched(r, w) - Confirmed(w.log), Open(w.log));
  }

  /** The beginning of a run. */
  lemma SoundAtFirst(hasMove: bool, r: Run, w: World)
    requires WorldOk(w) && r.s0 == w.server && w.log == [] && w.came == map[]
    ensures Sound(hasMove, r, w) && SoundThrough(hasMove, r, w, Start)
  {
    InvAtFirst(r, w);
    AheadAtFirst(r, w);
    hide Ahead, Inv;
    SoundStart(hasMove, r, w);
  }

  lemma InvAtFirst(r: Run, w: World)
    requires WorldOk(w) && r.s0 == w.server && w.log == [] && w.came == map[]
    ensures Inv(r, w)
  {
    assert Displace(r.s0, map[]) == r.s0.mail;
    assert w.log[..w.synced] == [];
    assert w.came.Values == {};
  }

  lemma AheadAtFirst(r: Run, w: World)
    requires WorldOk(w) && r.s0 == w.server && w.log == []
    ensures Ahead(r, w)
  {
    forall l | l in r.s0.mail ensures Untouched(Origin(r), w, l) && Safe(Origin(r), w, r.trash, {}, l) {}
    hide Safe, Untouched;
    assert w.log[..w.synced] == [];
    assert Touched(r, w) == {};
  }
}
