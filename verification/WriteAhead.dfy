/** The write-ahead protocol of a delete run: what holds of the server and the
    audit file at every moment of it, so that a crash at any moment leaves a
    log from which the run can be undone. */
module WriteAhead {
  import opened Mailbox
  import opened Audit
  import opened Events

  const MOVE_BATCH := 200

  /** What a run started from. */
  datatype Run = Run(s0: Server, trash: Folder, account: string)

  /** A message the run may take: one it started with, outside Trash. */
  ghost predicate Original(r: Run, l: Loc) {
    l in r.s0.mail && l.folder != r.trash
  }

  ghost predicate LineOk(r: Run, l: Line) {
    l.action == Move ==>
      && l.account == r.account && l.dst == r.trash && l.src != NOWHERE
      && (IsIntent(l) || IsDone(l))
      && (IsIntent(l) ==>
            && 0 < l.uid && l.id != "" && Original(r, Loc(l.src, l.uid))
            && r.s0.mail[Loc(l.src, l.uid)].id == l.id)
      && (IsDone(l) ==> l.id == "")
  }

  /** Every move line is well formed and no position is named by two pending lines. */
  ghost predicate LogOk(r: Run, log: seq<Line>) {
    log == [] ||
    var l := log[|log| - 1];
    LogOk(r, log[..|log| - 1]) && LineOk(r, l) &&
    (IsIntent(l) ==> Loc(l.src, l.uid) !in Intents(log[..|log| - 1]))
  }

  ghost predicate Injective(m: map<Loc, Loc>) {
    forall x, y :: x in m && y in m && m[x] == m[y] ==> x == y
  }

  /** s0's messages, those that moved being where they went instead of where they were. */
  ghost function Displace(s0: Server, came: map<Loc, Loc>): map<Loc, Mail> {
    (s0.mail - came.Values) + map t | t in came && came[t] in s0.mail :: s0.mail[came[t]]
  }

  /** The server is the one the run started from, but for the messages in
      came, which are in Trash under UIDs that were not in use there. */
  ghost predicate Displaced(r: Run, s: Server, came: map<Loc, Loc>) {
    && ServerOk(r.s0)
    && s.next.Keys == r.s0.next.Keys && s.validity == r.s0.validity
    && (forall t <- came ::
          && t.folder == r.trash && r.trash in r.s0.next && r.s0.next[r.trash] <= t.uid
          && Original(r, came[t]))
    && (forall f <- s.next :: r.s0.next[f] <= s.next[f])
    && Injective(came)
    && s.mail == Displace(r.s0, came)
  }

  ghost predicate OneFolder(locs: set<Loc>) {
    forall x, y :: x in locs && y in locs ==> x.folder == y.folder
  }

  /** What the log of a delete run says about the messages moved so far.
      - Every message that moved has a durable pending line (write-ahead).
      - Every message a done line confirms did move.
      - What moved and is not confirmed lies in one batch: the pending lines
        since the last done line, at most 200 and all of one folder. */
  ghost predicate Recorded(r: Run, log: seq<Line>, synced: nat, moved: set<Loc>) {
    && synced <= |log| && LogOk(r, log)
    && moved <= Intents(log[..synced])
    && Confirmed(log) <= moved <= Confirmed(log) + Open(log)
    && |Open(log)| <= MOVE_BATCH && OneFolder(Open(log))
  }

  /** The invariant of a delete run: nothing has happened to the server but
      moves from outside Trash into Trash, and the log knows of them. */
  ghost predicate Inv(r: Run, w: World) {
    && WorldOk(w)
    && Displaced(r, w.server, w.came)
    && Recorded(r, w.log, w.synced, w.came.Values)
  }

  lemma ValuesInsert(m: map<Loc, Loc>, k: Loc, v: Loc)
    requires k !in m
    ensures m[k := v].Values == m.Values + {v}
  {
    assert m[k := v][k] == v;
    forall x | x in m.Values ensures x in m[k := v].Values {
      var j :| j in m && m[j] == x;
      assert m[k := v][j] == x;
    }
  }

  lemma LogSnoc(r: Run, log: seq<Line>, l: Line)
    ensures LogOk(r, log + [l]) <==>
            LogOk(r, log) && LineOk(r, l) && (IsIntent(l) ==> Loc(l.src, l.uid) !in Intents(log))
  {
    Snoc(log, l);
  }

  lemma RecordOther(r: Run, log: seq<Line>, synced: nat, moved: set<Loc>, l: Line)
    requires Recorded(r, log, synced, moved) && l.action != Move
    ensures Recorded(r, log + [l], synced, moved)
    ensures Open(log + [l]) == Open(log) && Intents(log + [l]) == Intents(log)
  {
    LogSnoc(r, log, l);
    ReadSnoc(log, l);
    assert (log + [l])[..synced] == log[..synced];
  }

  lemma RecordIntent(r: Run, log: seq<Line>, synced: nat, moved: set<Loc>, l: Line)
    requires Recorded(r, log, synced, moved)
    requires IsIntent(l) && LineOk(r, l) && Loc(l.src, l.uid) !in Intents(log)
    requires |Open(log)| < MOVE_BATCH && forall x <- Open(log) :: x.folder == l.src
    ensures Recorded(r, log + [l], synced, moved)
  {
    LogSnoc(r, log, l);
    ReadSnoc(log, l);
    assert (log + [l])[..synced] == log[..synced];
  }

  lemma RecordDone(r: Run, log: seq<Line>, synced: nat, moved: set<Loc>, l: Line)
    requires Recorded(r, log, synced, moved) && IsDone(l) && LineOk(r, l)
    requires Open(log) <= LocsOf(l.src, l.uids) <= moved
    ensures Recorded(r, log + [l], synced, moved) && Open(log + [l]) == {}
  {
    LogSnoc(r, log, l);
    ReadSnoc(log, l);
    assert (log + [l])[..synced] == log[..synced];
  }

  lemma RecordSync(r: Run, log: seq<Line>, synced: nat, moved: set<Loc>)
    requires Recorded(r, log, synced, moved)
    ensures Recorded(r, log, |log|, moved)
  {
    ReadPrefix(log, synced);
    assert log[..|log|] == log;
  }

  lemma DisplaceMore(s0: Server, came: map<Loc, Loc>, at: Loc, to: Loc)
    requires at in s0.mail && at !in came.Values && at !in came && to !in came && to !in s0.mail
    ensures at in Displace(s0, came) && Displace(s0, came)[at] == s0.mail[at]
    ensures came[to := at].Values == came.Values + {at}
    ensures Displace(s0, came[to := at]) == (Displace(s0, came) - {at})[to := s0.mail[at]]
  {
    ValuesInsert(came, to, at);
    var a, b := Displace(s0, came[to := at]), (Displace(s0, came) - {at})[to := s0.mail[at]];
    assert forall l :: l in a <==> l in b;
    assert forall l :: l in a ==> a[l] == b[l];
  }

  lemma InjectiveMore(came: map<Loc, Loc>, at: Loc, to: Loc)
    requires Injective(came) && at !in came.Values && to !in came
    ensures Injective(came[to := at])
  {
    assert forall x :: x in came ==> came[x] in came.Values;
  }

  lemma DisplacedMore(r: Run, s: Server, came: map<Loc, Loc>, at: Loc, to: Loc)
    requires ServerOk(s) && Displaced(r, s, came) && Legal(s, Moved(at, to)) && to.folder == r.trash
    requires at.folder != r.trash
    ensures Displaced(r, ServerStep(s, Moved(at, to)), came[to := at])
    ensures came[to := at].Values == came.Values + {at}
  {
    DisplacedMeans(r, s, came, at, to);
    hide Displace, Injective;
    DisplaceMore(r.s0, came, at, to);
    InjectiveMore(came, at, to);
  }

  lemma DisplacedMeans(r: Run, s: Server, came: map<Loc, Loc>, at: Loc, to: Loc)
    requires ServerOk(s) && Displaced(r, s, came) && Legal(s, Moved(at, to)) && to.folder == r.trash
    requires at.folder != r.trash
    ensures at !in came && at in r.s0.mail && at !in came.Values && s.mail[at] == r.s0.mail[at]
    ensures to !in came && to !in r.s0.mail
  {
    assert to !in s.mail;
    assert at !in came;
  }

  lemma InvMoved(r: Run, w: World, at: Loc, to: Loc)
    requires Inv(r, w) && Legal(w.server, Moved(at, to)) && to.folder == r.trash
    requires at in Open(w.log) && at in Intents(w.log[..w.synced]) && at.folder != r.trash
    ensures Inv(r, Step(w, Moved(at, to)))
    ensures Step(w, Moved(at, to)).came.Values == w.came.Values + {at}
  {
    StepOk(w, Moved(at, to));
    DisplacedMore(r, w.server, w.came, at, to);
  }

  /** The invariant holds at every moment of es. */
  ghost predicate InvThrough(r: Run, w: World, es: History) {
    forall p :: Begins(p, es) ==> Inv(r, Replay(w, p))
  }

  lemma InvNow(r: Run, w: World, es: History)
    requires InvThrough(r, w, es)
    ensures Inv(r, Replay(w, es))
  {
    assert Begins(es, es);
  }

  lemma InvThroughStart(r: Run, w: World)
    requires Inv(r, w)
    ensures InvThrough(r, w, Start)
  {
  }

  lemma InvThroughMore(r: Run, w: World, es: History, e: Event)
    requires InvThrough(r, w, es) && Inv(r, Step(Replay(w, es), e))
    ensures InvThrough(r, w, Then(es, e))
  {
  }

  lemma InvThroughAppend(r: Run, w: World, a: History, b: History)
    requires InvThrough(r, w, a) && InvThrough(r, Replay(w, a), b)
    ensures InvThrough(r, w, Append(a, b))
  {
    forall p | Begins(p, Append(a, b)) ensures Inv(r, Replay(w, p)) {
      if !Begins(p, a) {
        var q := BeginsAppend(p, a, b);
        AppendReplay(w, a, q);
      }
    }
  }

  lemma OneMoreMove(r: Run, w: World, es: History, at: Loc, to: Loc)
    requires InvThrough(r, w, es)
    requires var t := Replay(w, es);
      && Legal(t.server, Moved(at, to)) && t.synced <= |t.log|
      && at in Open(t.log) && at in Intents(t.log[..t.synced])
    requires to.folder == r.trash && at.folder != r.trash
    ensures InvThrough(r, w, Then(es, Moved(at, to)))
    ensures Step(Replay(w, es), Moved(at, to)).came.Values == Replay(w, es).came.Values + {at}
  {
    InvNow(r, w, es);
    InvMoved(r, Replay(w, es), at, to);
    InvThroughMore(r, w, es, Moved(at, to));
  }

  /** A UID MOVE of recorded messages keeps the invariant however far it gets. */
  lemma {:induction false} InvMoveRun(r: Run, w: World, es: History, src: Folder)
    requires InvThrough(r, w, Start) && w.synced <= |w.log|
    requires LegalRun(w, es) && IsCommand(es, Moving, src, r.trash) && src != r.trash
    requires Acted(es) <= Open(w.log) && Acted(es) <= Intents(w.log[..w.synced])
    ensures InvThrough(r, w, es)
    ensures Replay(w, es).came.Values == w.came.Values + Acted(es)
    ensures Replay(w, es).log == w.log && Replay(w, es).synced == w.synced
  {
    hide Inv;
    if es.Then? {
      InvMoveRun(r, w, es.past, src);
      OneMoreMove(r, w, es.past, es.e.at, es.e.to);
    }
  }

  /** es wrote lines, none of them a move line, and did nothing else. */
  ghost predicate LogsOnly(es: History) {
    es.Then? ==> LogsOnly(es.past) && es.e.Wrote? && es.e.line.action != Move
  }

  /** Such lines change neither the server nor anything the move lines say. */
  lemma {:induction false} LogsOnlyKeeps(w: World, es: History)
    requires LogsOnly(es)
    ensures var t := Replay(w, es);
      && t.server == w.server && t.came == w.came && t.synced == w.synced && w.log <= t.log
      && Intents(t.log) == Intents(w.log) && Open(t.log) == Open(w.log) && Confirmed(t.log) == Confirmed(w.log)
  {
    if es.Then? {
      LogsOnlyKeeps(w, es.past);
      ReadSnoc(Replay(w, es.past).log, es.e.line);
    }
  }

  lemma {:induction false} LogsOnlyInv(r: Run, w: World, es: History)
    requires LogsOnly(es) && InvThrough(r, w, Start)
    ensures InvThrough(r, w, es)
  {
    hide Inv;
    if es.Then? {
      LogsOnlyInv(r, w, es.past);
      InvNow(r, w, es.past);
      InvWroteOther(r, Replay(w, es.past), es.e.line);
      InvThroughMore(r, w, es.past, es.e);
    }
  }

  lemma InvWroteOther(r: Run, w: World, l: Line)
    requires Inv(r, w) && l.action != Move
    ensures Inv(r, Step(w, Wrote(l)))
  {
    RecordOther(r, w.log, w.synced, w.came.Values, l);
  }

  lemma AppendLogsOnly(a: History, b: History)
    requires LogsOnly(a) && LogsOnly(b)
    ensures LogsOnly(Append(a, b))
  {
  }

  /** A pending line for a message of src that is on the server s. */
  ghost predicate IntentFor(r: Run, s: Server, src: Folder, l: Line) {
    && IsIntent(l) && l.account == r.account && l.src == src && l.dst == r.trash
    && l.id != "" && Loc(src, l.uid) in s.mail && s.mail[Loc(src, l.uid)].id == l.id
  }

  /** The positions named by the lines es wrote. */
  ghost function Named(es: History): set<Loc> {
    match es
    case Start => {}
    case Then(past, e) => Named(past) + if e.Wrote? then {Loc(e.line.src, e.line.uid)} else {}
  }

  /** es wrote a pending line each for some messages of src, and did nothing else. */
  ghost predicate Intends(r: Run, s: Server, src: Folder, es: History) {
    es.Then? ==>
      Intends(r, s, src, es.past) && es.e.Wrote? && IntentFor(r, s, src, es.e.line)
      && Loc(src, es.e.line.uid) !in Named(es.past)
  }

  lemma {:induction false} IntendsKeeps(r: Run, w: World, src: Folder, es: History)
    requires Intends(r, w.server, src, es)
    ensures var t := Replay(w, es);
      && t.server == w.server && t.came == w.came && t.synced == w.synced
      && Intents(t.log) == Intents(w.log) + Named(es) && Open(t.log) == Open(w.log) + Named(es)
      && Confirmed(t.log) == Confirmed(w.log) && Tally(t.log) == Tally(w.log)
    ensures forall l <- Named(es) :: l.folder == src && l in w.server.mail
  {
    if es.Then? {
      IntendsKeeps(r, w, src, es.past);
      ReadSnoc(Replay(w, es.past).log, es.e.line);
      TallySnoc(Replay(w, es.past).log, es.e.line);
    }
  }

  lemma {:induction false} IntendsInv(r: Run, w: World, src: Folder, es: History)
    requires Intends(r, w.server, src, es) && InvThrough(r, w, Start)
    requires Open(w.log) == {} && Named(es) !! Intents(w.log) && |Named(es)| <= MOVE_BATCH
    requires src != r.trash && src != NOWHERE
    ensures InvThrough(r, w, es)
  {
    hide Inv;
    if es.Then? {
      assert Named(es) == Named(es.past) + {Loc(src, es.e.line.uid)};
      IntendsInv(r, w, src, es.past);
      IntendsKeeps(r, w, src, es.past);
      InvNow(r, w, es.past);
      IntentKeepsInv(r, Replay(w, es.past), es.e.line);
      InvThroughMore(r, w, es.past, es.e);
    }
  }

  /** Outside Trash, what is on the server is what the run started with. */
  lemma OutsideTrash(r: Run, w: World, l: Loc)
    requires Inv(r, w) && l in w.server.mail && l.folder != r.trash
    ensures Original(r, l) && r.s0.mail[l] == w.server.mail[l] && l !in w.came.Values
  {
  }

  lemma IntentKeepsInv(r: Run, w: World, l: Line)
    requires Inv(r, w) && IntentFor(r, w.server, l.src, l) && l.src != NOWHERE && l.src != r.trash
    requires Loc(l.src, l.uid) !in Intents(w.log)
    requires |Open(w.log)| < MOVE_BATCH && forall x <- Open(w.log) :: x.folder == l.src
    ensures Inv(r, Step(w, Wrote(l)))
  {
    OutsideTrash(r, w, Loc(l.src, l.uid));
    InvWroteIntent(r, w, l);
  }

  lemma InvWroteIntent(r: Run, w: World, l: Line)
    requires Inv(r, w) && IsIntent(l) && LineOk(r, l) && Loc(l.src, l.uid) !in Intents(w.log)
    requires |Open(w.log)| < MOVE_BATCH && forall x <- Open(w.log) :: x.folder == l.src
    ensures Inv(r, Step(w, Wrote(l)))
  {
    RecordIntent(r, w.log, w.synced, w.came.Values, l);
  }

  lemma InvWroteDone(r: Run, w: World, l: Line)
    requires Inv(r, w) && IsDone(l) && LineOk(r, l)
    requires Open(w.log) <= LocsOf(l.src, l.uids) <= w.came.Values
    ensures Inv(r, Step(w, Wrote(l))) && Open(w.log + [l]) == {}
  {
    RecordDone(r, w.log, w.synced, w.came.Values, l);
  }

  lemma InvSynced(r: Run, w: World)
    requires Inv(r, w)
    ensures Inv(r, Step(w, Synced))
  {
    RecordSync(r, w.log, w.synced, w.came.Values);
  }

  lemma SyncInv(r: Run, w: World, es: History)
    requires InvThrough(r, w, es)
    ensures InvThrough(r, w, Then(es, Synced))
  {
    InvNow(r, w, es);
    InvSynced(r, Replay(w, es));
    InvThroughMore(r, w, es, Synced);
  }

  /** The line that confirms a batch that has moved, and its fsync. */
  ghost predicate DoneFor(r: Run, src: Folder, batch: seq<nat>, l: Line) {
    IsDone(l) && l.account == r.account && l.src == src && l.dst == r.trash && l.id == "" && l.uids == batch
  }

  lemma DoneInv(r: Run, w: World, src: Folder, batch: seq<nat>, l: Line)
    requires InvThrough(r, w, Start) && DoneFor(r, src, batch, l) && src != NOWHERE
    requires Open(w.log) <= LocsOf(src, batch) <= w.came.Values
    ensures InvThrough(r, w, Then(Start, Wrote(l))) && InvThrough(r, w, Then(Then(Start, Wrote(l)), Synced))
  {
    InvNow(r, w, Start);
    InvWroteDone(r, w, l);
    InvThroughMore(r, w, Start, Wrote(l));
    SyncInv(r, w, Then(Start, Wrote(l)));
  }

  /** A position is named by some pending line, and in an orderly log that line
      has the Message-ID the message there had when the run started. */
  lemma {:induction false} IntentLine(r: Run, log: seq<Line>, at: Loc) returns (k: nat)
    requires LogOk(r, log) && at in Intents(log)
    ensures k < |log| && IsIntent(log[k]) && Loc(log[k].src, log[k].uid) == at
    ensures at in r.s0.mail && log[k].id == r.s0.mail[at].id && log[k].id != "" && log[k].dst == r.trash
    decreases |log|
  {
    k := |log| - 1;
    if !IsIntent(log[k]) || Loc(log[k].src, log[k].uid) != at {
      k := IntentLine(r, log[..|log| - 1], at);
    }
  }

  /** What the invariant promises of any message the run started with that is no
      longer where it was: it is in Trash, once, as it was, and a durable
      pending line has its folder, UID and Message-ID. */
  lemma TakenIsRecorded(r: Run, w: World, at: Loc) returns (to: Loc, k: nat)
    requires Inv(r, w) && at in r.s0.mail && at !in w.server.mail
    ensures to.folder == r.trash && to in w.server.mail && w.server.mail[to] == r.s0.mail[at] && to !in r.s0.mail
    ensures forall t <- w.came :: w.came[t] == at ==> t == to
    ensures k < w.synced <= |w.log| && IsIntent(w.log[k]) && Loc(w.log[k].src, w.log[k].uid) == at
    ensures w.log[k].id == r.s0.mail[at].id
  {
    to := TakenIsInTrash(r, w, at);
    k := RecordedLine(r, w.log, w.synced, w.came.Values, at);
  }

  lemma TakenIsInTrash(r: Run, w: World, at: Loc) returns (to: Loc)
    requires Displaced(r, w.server, w.came) && at in r.s0.mail && at !in w.server.mail
    ensures to.folder == r.trash && to in w.server.mail && w.server.mail[to] == r.s0.mail[at] && to !in r.s0.mail
    ensures at in w.came.Values && forall t <- w.came :: w.came[t] == at ==> t == to
  {
    assert at in w.came.Values;
    to :| to in w.came && w.came[to] == at;
  }

  lemma RecordedLine(r: Run, log: seq<Line>, synced: nat, moved: set<Loc>, at: Loc) returns (k: nat)
    requires Recorded(r, log, synced, moved) && at in moved
    ensures k < synced <= |log| && IsIntent(log[k]) && Loc(log[k].src, log[k].uid) == at
    ensures at in r.s0.mail && log[k].id == r.s0.mail[at].id
  {
    var durable := log[..synced];
    DurableOk(r, log, synced);
    k := IntentLine(r, durable, at);
    assert log[k] == durable[k];
  }

  lemma {:induction false} DurableOk(r: Run, log: seq<Line>, k: nat)
    requires LogOk(r, log) && k <= |log|
    ensures LogOk(r, log[..k])
    decreases |log|
  {
    if k < |log| {
      assert log[..|log| - 1][..k] == log[..k];
      DurableOk(r, log[..|log| - 1], k);
    } else {
      assert log[..k] == log;
    }
  }

  /** And of every message a done line confirms: it did move. What moved and is
      not confirmed is at most one batch, of one folder. */
  lemma ConfirmedHasMoved(r: Run, w: World)
    requires Inv(r, w)
    ensures forall l <- Confirmed(w.log) :: l in r.s0.mail && l !in w.server.mail
    ensures |w.came.Values - Confirmed(w.log)| <= MOVE_BATCH && OneFolder(w.came.Values - Confirmed(w.log))
  {
    var loose := w.came.Values - Confirmed(w.log);
    assert loose <= Open(w.log);
    assert Open(w.log) == loose + (Open(w.log) - loose);
    forall l | l in w.came.Values ensures l in r.s0.mail && l !in w.server.mail {
      var t :| t in w.came && w.came[t] == l;
    }
  }
}
