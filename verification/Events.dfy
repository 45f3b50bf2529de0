/** The atomic effects a run can have on the mail server and on the audit
    file. A crash leaves what some beginning of the run's history left, so
    "at every step" is "after every beginning of the history". */
module Events {
  import opened Mailbox
  import opened Audit

  datatype Event =
    | Wrote(line: Line)          // one line reached the audit file
    | Synced                     // fsync: every line written is durable
    | Moved(at: Loc, to: Loc)    // one message of a UID MOVE (section 3.3 of RFC 6851)
    | Copied(at: Loc, to: Loc)   // one message of a UID COPY
    | Flagged(at: Loc)           // one message of a STORE +FLAGS \Deleted
    | Expunged(at: Loc)          // one message of a UID EXPUNGE (section 2.1 of RFC 4315)

  /** Events in the order they happened, the last one outermost. */
  datatype History = Start | Then(past: History, e: Event)

  /** What a crash would leave behind: the server, the audit file, how much
      of the file is durable, where each message that arrived came from, and
      where each message that was moved or copied last went. */
  datatype World = World(server: Server, came: map<Loc, Loc>, went: map<Loc, Loc>, log: seq<Line>, synced: nat)

  ghost predicate WorldOk(w: World) {
    ServerOk(w.server) && w.synced <= |w.log|
  }

  predicate CanArrive(s: Server, l: Loc) {
    l.folder in s.next && s.next[l.folder] <= l.uid
  }

  predicate Legal(s: Server, e: Event) {
    e.Wrote? || e.Synced? ||
    (&& e.at in s.mail
     && (e.Moved? || e.Copied? ==> CanArrive(s, e.to))
     && (e.Expunged? ==> DELETED in s.mail[e.at].flags))
  }

  function ServerStep(s: Server, e: Event): Server
    requires Legal(s, e)
  {
    match e
    case Wrote(_) => s
    case Synced => s
    case Moved(at, to) => Arrive(Drop(s, at), to, s.mail[at])
    case Copied(at, to) => Arrive(s, to, s.mail[at])
    case Flagged(at) => s.(mail := s.mail[at := FlagDeleted(s.mail[at])])
    case Expunged(at) => Drop(s, at)
  }

  function Step(w: World, e: Event): World {
    World(
      if Legal(w.server, e) then ServerStep(w.server, e) else w.server,
      if e.Moved? || e.Copied? then w.came[e.to := e.at] else w.came,
      if e.Moved? || e.Copied? then w.went[e.at := e.to] else w.went,
      if e.Wrote? then w.log + [e.line] else w.log,
      if e.Synced? then |w.log| else w.synced)
  }

  ghost function Replay(w: World, h: History): World {
    match h
    case Start => w
    case Then(past, e) => Step(Replay(w, past), e)
  }

  /** Every event was possible when it happened. */
  ghost predicate LegalRun(w: World, h: History) {
    h.Then? ==> LegalRun(w, h.past) && Legal(Replay(w, h.past).server, h.e)
  }

  ghost function Append(a: History, b: History): History {
    match b
    case Start => a
    case Then(past, e) => Then(Append(a, past), e)
  }

  ghost predicate Begins(p: History, h: History) {
    p == h || (h.Then? && Begins(p, h.past))
  }

  lemma AppendReplay(w: World, a: History, b: History)
    ensures Replay(w, Append(a, b)) == Replay(Replay(w, a), b)
    ensures LegalRun(w, Append(a, b)) <==> LegalRun(w, a) && LegalRun(Replay(w, a), b)
  {
  }

  lemma AppendAppend(a: History, b: History, c: History)
    ensures Append(Append(a, b), c) == Append(a, Append(b, c))
  {
  }

  /** A beginning of a then b is a beginning of a, or a then a beginning of b. */
  lemma {:induction false} BeginsAppend(p: History, a: History, b: History) returns (q: History)
    requires Begins(p, Append(a, b)) && !Begins(p, a)
    ensures Begins(q, b) && p == Append(a, q)
  {
    q := b;
    if p != Append(a, b) {
      q := BeginsAppend(p, a, b.past);
    }
  }

  datatype Kind = Moving | Copying | Flagging | Expunging

  function KindOf(e: Event): Kind
    requires !e.Wrote? && !e.Synced?
  {
    match e
    case Moved(_, _) => Moving
    case Copied(_, _) => Copying
    case Flagged(_) => Flagging
    case Expunged(_) => Expunging
  }

  predicate OfKind(e: Event, kind: Kind, src: Folder, dst: Folder) {
    && !e.Wrote? && !e.Synced? && KindOf(e) == kind && e.at.folder == src
    && (e.Moved? || e.Copied? ==> e.to.folder == dst)
  }

  /** The positions that events act on. */
  ghost function Acted(h: History): set<Loc> {
    match h
    case Start => {}
    case Then(past, e) => Acted(past) + if e.Wrote? || e.Synced? then {} else {e.at}
  }

  predicate Arrives(e: Event) {
    e.Moved? || e.Copied?
  }

  /** The positions that messages were moved or copied from. */
  ghost function Sources(h: History): set<Loc> {
    match h
    case Start => {}
    case Then(past, e) => Sources(past) + if Arrives(e) then {e.at} else {}
  }

  /** No message is copied twice, and only one that was copied is marked. */
  ghost predicate Orderly(h: History) {
    h.Then? ==>
      && Orderly(h.past)
      && (Arrives(h.e) ==> h.e.at !in Sources(h.past))
      && (h.e.Flagged? ==> h.e.at in Sources(h.past))
  }

  lemma OrderlyAppend(a: History, b: History)
    requires Orderly(a) && Orderly(b) && Sources(a) !! Sources(b)
    ensures Orderly(Append(a, b)) && Sources(Append(a, b)) == Sources(a) + Sources(b)
  {
  }

  /** h is one command's effect on distinct messages of src. */
  ghost predicate IsCommand(h: History, kind: Kind, src: Folder, dst: Folder) {
    h.Then? ==> IsCommand(h.past, kind, src, dst) && OfKind(h.e, kind, src, dst) && h.e.at !in Acted(h.past)
  }

  lemma {:induction false} OrderlyCommand(a: History, b: History, kind: Kind, src: Folder, dst: Folder)
    requires Orderly(a) && IsCommand(b, kind, src, dst)
    requires kind.Moving? || kind.Copying? ==> Acted(b) !! Sources(a)
    requires kind.Flagging? ==> Acted(b) <= Sources(a)
    ensures Orderly(Append(a, b))
    ensures Sources(Append(a, b)) == Sources(a) + if kind.Moving? || kind.Copying? then Acted(b) else {}
  {
    if b.Then? { OrderlyCommand(a, b.past, kind, src, dst); }
  }

  lemma CommandSources(h: History, kind: Kind, src: Folder, dst: Folder)
    requires IsCommand(h, kind, src, dst)
    ensures forall l <- Acted(h) :: l.folder == src
  {
  }

  /** Flagging and expunging have no destination. */
  lemma CommandDst(h: History, kind: Kind, src: Folder, dst: Folder, dst': Folder)
    requires kind.Flagging? || kind.Expunging?
    requires IsCommand(h, kind, src, dst)
    ensures IsCommand(h, kind, src, dst')
  {
  }

  lemma AppendActed(a: History, b: History)
    ensures Acted(Append(a, b)) == Acted(a) + Acted(b)
  {
  }

  lemma AppendCommand(a: History, b: History, kind: Kind, src: Folder, dst: Folder)
    requires IsCommand(a, kind, src, dst) && IsCommand(b, kind, src, dst) && Acted(a) !! Acted(b)
    ensures IsCommand(Append(a, b), kind, src, dst)
  {
    if b.Then? { AppendActed(a, b.past); }
  }

  /** What events do to the server depends on the server alone. */
  lemma ServerOnly(w: World, t: World, h: History)
    requires w.server == t.server
    ensures Replay(w, h).server == Replay(t, h).server && (LegalRun(w, h) <==> LegalRun(t, h))
    ensures w.came == t.came ==> Replay(w, h).came == Replay(t, h).came
  {
  }

  /** Every event is a command's effect on one of locs, in src, with any arrival in dst. */
  ghost predicate Confined(h: History, src: Folder, dst: Folder, locs: set<Loc>) {
    match h
    case Start => true
    case Then(past, e) =>
      && Confined(past, src, dst, locs)
      && (exists kind :: OfKind(e, kind, src, dst)) && e.at in locs
  }

  /** Confined events make nothing appear outside dst. */
  lemma ArrivalsOnly(w: World, h: History, src: Folder, dst: Folder, locs: set<Loc>)
    requires Confined(h, src, dst, locs)
    ensures forall l <- Replay(w, h).server.mail :: l.folder != dst ==> l in w.server.mail
  {
  }

  lemma CommandConfined(h: History, kind: Kind, src: Folder, dst: Folder, locs: set<Loc>)
    requires IsCommand(h, kind, src, dst) && Acted(h) <= locs
    ensures Confined(h, src, dst, locs)
  {
    if h.Then? {
      CommandConfined(h.past, kind, src, dst, locs);
      assert OfKind(h.e, kind, src, dst);
    }
  }

  lemma AppendConfined(a: History, b: History, src: Folder, dst: Folder, locs: set<Loc>)
    requires Confined(a, src, dst, locs) && Confined(b, src, dst, locs)
    ensures Confined(Append(a, b), src, dst, locs)
  {
  }

  /** The messages at locs are the same in s and t. */
  ghost predicate Agree(s: Server, t: Server, locs: set<Loc>) {
    forall l <- locs :: l in s.mail && l in t.mail && t.mail[l] == s.mail[l]
  }

  /** A command on one message leaves every other message in place. */
  lemma AgreeStep(s: Server, t: Server, locs: set<Loc>, e: Event)
    requires ServerOk(t) && Agree(s, t, locs) && Legal(t, e) && !e.Wrote? && !e.Synced?
    ensures Agree(s, ServerStep(t, e), locs - {e.at})
  {
  }

  lemma StepOk(w: World, e: Event)
    requires WorldOk(w)
    ensures WorldOk(Step(w, e)) && Step(w, e).server.next.Keys == w.server.next.Keys
    ensures Step(w, e).server.validity == w.server.validity
  {
  }
}
