/** Executing a reviewed plan's deletions (internal/apply/apply.go and
    internal/apply/phases.go). */
module Apply {
  import opened Mailbox
  import opened Audit
  import opened Events
  import opened Moves
  import opened Host
  import opened Uids
  import opened WriteAhead
  import opened Soundness
  import opened Rules
  import A = Auditor
  import I = Imapx
  import S = Store

  const REASON_NO_TRASH := "no trash folder"
  const REASON_UIDVALIDITY := "uidvalidity changed"
  const REASON_NOT_SCANNED := "folder not in the local scan state"
  const REASON_PROTECTED_FOLDER := "protected folder (trash/spam/drafts/sent)"
  const REASON_PROTECTED := "protected"
  const REASON_PROTECTED_ALL := "protected (delete_all refused)"
  const REASON_OWN_ADDRESS := "own address (delete_all refused)"
  const REASON_SELECT := "cannot select"

  lemma LocsCount(f: Folder, uids: seq<nat>)
    ensures |LocsOf(f, uids)| <= |uids|
    decreases |uids|
  {
    if uids != [] {
      var front, last := uids[..|uids| - 1], uids[|uids| - 1];
      LocsCount(f, front);
      assert LocsOf(f, uids) == LocsOf(f, front) + {Loc(f, last)};
    }
  }

  /** What the batches of one folder need to know of a message they may move:
      it is on the server, it is the one the row describes, and no pending line
      names it yet. */
  ghost predicate Movable(w: World, folder: Folder, byUid: map<nat, S.Row>, u: nat) {
    && u in byUid && byUid[u].at == Loc(folder, u) && byUid[u].id != ""
    && Loc(folder, u) in w.server.mail && w.server.mail[Loc(folder, u)].id == byUid[u].id
    && Loc(folder, u) !in Intents(w.log)
  }

  /** es wrote pending lines for messages of src among locs; ok means that it
      wrote all of them and then made the log durable. */
  ghost predicate Recording(r: Run, w: World, src: Folder, locs: set<Loc>, es: History, ok: bool) {
    if ok then
      es.Then? && es.e.Synced? && Intends(r, w.server, src, es.past) && Named(es.past) == locs
    else
      Intends(r, w.server, src, es) && Named(es) <= locs
  }

  ghost predicate Confirming(r: Run, src: Folder, batch: seq<nat>, es: History, ok: bool) {
    if ok then
      exists l :: DoneFor(r, src, batch, l) && es == Then(Then(Start, Wrote(l)), Synced)
    else
      es == Start || exists l :: DoneFor(r, src, batch, l) && es == Then(Start, Wrote(l))
  }

  lemma RecordingKeeps(r: Run, w: World, src: Folder, locs: set<Loc>, es: History, ok: bool)
    requires Recording(r, w, src, locs, es, ok)
    ensures var t := Replay(w, es);
      && t.server == w.server && t.came == w.came && Intents(w.log) <= Intents(t.log) <= Intents(w.log) + locs
      && Confirmed(t.log) == Confirmed(w.log) && Tally(t.log) == Tally(w.log)
      && (ok ==> Open(t.log) == Open(w.log) + locs && locs <= Intents(t.log) && t.synced == |t.log|)
  {
    IntendsKeeps(r, w, src, if ok then es.past else es);
  }

  lemma SoundRecording(hasMove: bool, r: Run, w: World, src: Folder, locs: set<Loc>, es: History, ok: bool)
    requires Recording(r, w, src, locs, es, ok) && Sound(hasMove, r, w) && Inv(r, w)
    requires Open(w.log) == {} && locs !! Intents(w.log) && |locs| <= MOVE_BATCH
    requires src != r.trash && src != NOWHERE
    ensures SoundThrough(hasMove, r, w, es)
    ensures ok ==> var t := Replay(w, es); Inv(r, t) && Settled(r, t) && locs <= Durable(t)
  {
    hide Sound, Inv, SoundThrough, Settled, Durable, Intends, Named, Open, Intents;
    if ok {
      RecordedSound(hasMove, r, w, src, es.past);
    } else {
      SubsetCount(Named(es), locs);
      SoundIntends(hasMove, r, w, src, es);
    }
  }

  lemma RecordedSound(hasMove: bool, r: Run, w: World, src: Folder, a: History)
    requires Intends(r, w.server, src, a) && Sound(hasMove, r, w) && Inv(r, w) && Open(w.log) == {}
    requires Named(a) !! Intents(w.log) && |Named(a)| <= MOVE_BATCH && src != r.trash && src != NOWHERE
    ensures var es := Then(a, Synced);
      SoundThrough(hasMove, r, w, es) && Inv(r, Replay(w, es)) && Settled(r, Replay(w, es)) && Named(a) <= Durable(Replay(w, es))
  {
    hide Sound, Inv, SoundThrough, Intends, Named, Touched;
    SoundOrdered(hasMove, r, w);
    SoundIntends(hasMove, r, w, src, a);
    SoundSynced(hasMove, r, w, a);
    RecordedInv(r, w, src, a);
    RecordedDurably(r, w, src, a);
  }

  lemma RecordedInv(r: Run, w: World, src: Folder, a: History)
    requires Intends(r, w.server, src, a) && Inv(r, w) && Open(w.log) == {} && Named(a) !! Intents(w.log)
    requires |Named(a)| <= MOVE_BATCH && src != r.trash && src != NOWHERE
    ensures Inv(r, Replay(w, Then(a, Synced)))
  {
    hide Inv, InvThrough, Intends, Named;
    InvThroughStart(r, w);
    IntendsInv(r, w, src, a);
    SyncInv(r, w, a);
    InvNow(r, w, Then(a, Synced));
  }

  lemma RecordedDurably(r: Run, w: World, src: Folder, a: History)
    requires Intends(r, w.server, src, a)
    ensures Named(a) <= Durable(Replay(w, Then(a, Synced)))
  {
    IntendsKeeps(r, w, src, a);
    hide Intends;
    var t := Replay(w, Then(a, Synced));
    assert t.log[..t.synced] == t.log;
  }

  lemma ConfirmingKeeps(r: Run, w: World, src: Folder, batch: seq<nat>, es: History, ok: bool)
    requires Confirming(r, src, batch, es, ok)
    ensures var t := Replay(w, es);
      && t.server == w.server && t.came == w.came && Intents(t.log) == Intents(w.log)
      && (ok ==> Open(t.log) == {} && LocsOf(src, batch) <= Sealed(t) && Confirmed(t.log) == Confirmed(w.log) + LocsOf(src, batch))
      && (ok ==> Tally(t.log) == Tally(w.log).(moved := Tally(w.log).moved + |batch|))
  {
    if ok {
      var l :| DoneFor(r, src, batch, l) && es == Then(Then(Start, Wrote(l)), Synced);
      ReadSnoc(w.log, l);
      TallySnoc(w.log, l);
      assert Replay(w, es.past) == Step(w, Wrote(l));
      var t := Replay(w, es);
      assert t.log[..t.synced] == t.log;
    } else if es.Then? {
      var l :| DoneFor(r, src, batch, l) && es == Then(Start, Wrote(l));
      ReadSnoc(w.log, l);
      assert Replay(w, es) == Step(w, Wrote(l));
    }
  }

  lemma SoundConfirming(hasMove: bool, r: Run, w: World, src: Folder, batch: seq<nat>, es: History, ok: bool)
    requires Confirming(r, src, batch, es, ok) && Sound(hasMove, r, w) && Inv(r, w) && src != NOWHERE
    requires Open(w.log) <= LocsOf(src, batch) <= w.came.Values && AllGone(r, w, LocsOf(src, batch))
    ensures SoundThrough(hasMove, r, w, es)
  {
    hide Inv, InvThrough, SoundThrough, Ahead, Landed;
    AheadOrdered(r, w);
    SoundStart(hasMove, r, w);
    InvThroughStart(r, w);
    if es.Then? {
      var l := if ok then es.past.e.line else es.e.line;
      DoneInv(r, w, src, batch, l);
      AheadWroteDone(r, w, l);
      LandedLogged(r, w, Wrote(l));
      var one := Then(Start, Wrote(l));
      InvNow(r, w, one);
      assert Replay(w, one) == Step(w, Wrote(l));
      SoundThroughLog(hasMove, r, w, Start, Wrote(l));
      SoundSynced(hasMove, r, w, one);
    }
  }

  /** How one batch can go: recording it fails; or the move fails part way and
      the failure is logged; or it all moves, and confirming it may fail. */
  ghost predicate BatchRun(hasMove: bool, r: Run, w: World, src: Folder, batch: seq<nat>, a: History, m: History,
                           moves: History, z: History, recorded: bool, done: bool, ok: bool)
  {
    var locs := LocsOf(src, batch);
    && Recording(r, w, src, locs, a, recorded)
    && (if recorded then Afterwards(hasMove, r, Replay(w, a), src, batch, m, moves, z, done, ok) else m == Start && z == Start)
  }

  /** What follows the intents of a batch. */
  ghost predicate Afterwards(hasMove: bool, r: Run, w: World, src: Folder, batch: seq<nat>, m: History, moves: History,
                             z: History, done: bool, ok: bool)
  {
    && Transit(hasMove, w, src, r.trash, LocsOf(src, batch), m, moves, done)
    && (if done then Confirming(r, src, batch, z, ok) else LogsOnly(z) && !ok)
  }

  /** When a batch may start. */
  ghost predicate Ready(hasMove: bool, r: Run, w: World, src: Folder, batch: seq<nat>) {
    && Sound(hasMove, r, w) && Open(w.log) == {} && LocsOf(src, batch) !! Intents(w.log)
    && 0 < |batch| <= MOVE_BATCH && src != r.trash && src != NOWHERE
    && LocsOf(src, batch) <= w.server.mail.Keys
  }

  /** One batch, on either path and whichever step of it fails, keeps the
      guarantee at every moment. */
  lemma BatchSound(hasMove: bool, r: Run, w: World, src: Folder, batch: seq<nat>, a: History, m: History, moves: History,
                   z: History, recorded: bool, done: bool, ok: bool)
    requires BatchRun(hasMove, r, w, src, batch, a, m, moves, z, recorded, done, ok) && Ready(hasMove, r, w, src, batch)
    ensures SoundThrough(hasMove, r, w, Append(a, Append(m, z)))
  {
    var locs := LocsOf(src, batch);
    hide Inv, Ahead, Landed, SoundThrough, Afterwards, Recording, Settled, Durable, ServerOk, InvThrough;
    LocsCount(src, batch);
    AheadOrdered(r, w);
    SoundRecording(hasMove, r, w, src, locs, a, recorded);
    if recorded {
      var w1 := Replay(w, a);
      RecordingKeeps(r, w, src, locs, a, recorded);
      SoundNow(hasMove, r, w, a);
      assert Open(w1.log) == locs;
      AfterwardsSound(hasMove, r, w1, src, batch, m, moves, z, done, ok);
      SoundThroughAppend(hasMove, r, w, a, Append(m, z));
    }
  }

  lemma AfterwardsSound(hasMove: bool, r: Run, w: World, src: Folder, batch: seq<nat>, m: History, moves: History,
                        z: History, done: bool, ok: bool)
    requires Afterwards(hasMove, r, w, src, batch, m, moves, z, done, ok)
    requires Ahead(r, w) && Landed(r, w) && Inv(r, w) && Settled(r, w) && batch != [] && src != r.trash && src != NOWHERE
    requires LocsOf(src, batch) <= Durable(w) && LocsOf(src, batch) == Open(w.log) && LocsOf(src, batch) <= w.server.mail.Keys
    ensures SoundThrough(hasMove, r, w, Append(m, z))
  {
    var locs := LocsOf(src, batch);
    hide Inv, Ahead, Landed, SoundThrough, Transit, Confirming, Settled;
    assert Loc(src, batch[0]) in locs;
    AheadOrdered(r, w);
    SoundTransit(hasMove, r, w, src, locs, m, moves, done);
    SoundNow(hasMove, r, w, m);
    var v := Replay(w, m);
    if done {
      SoundConfirming(hasMove, r, v, src, batch, z, ok);
    } else {
      SoundLogsOnly(hasMove, r, v, z);
    }
    SoundThroughAppend(hasMove, r, w, m, z);
  }

  lemma PresentAll(w: World, src: Folder, batch: seq<nat>)
    requires LocsOf(src, batch) <= w.server.mail.Keys
    ensures LocsOf(src, batch) * w.server.mail.Keys == LocsOf(src, batch)
  {
  }

  lemma MovedBatch(h: Host, w: World, src: Folder, dst: Folder, batch: seq<nat>, es: History, moves: History, ok: bool)
    requires src != dst && KeptThrough(w, w, es, dst, LocsOf(src, batch)) && h.world == Replay(w, es)
    requires Confined(es, src, dst, LocsOf(src, batch))
    ensures UntouchedBut(w, h.world, dst, LocsOf(src, batch))
  {
    assert Begins(es, es);
    ArrivalsOnly(w, es, src, dst, LocsOf(src, batch));
    forall l | l in w.server.mail && l !in LocsOf(src, batch) ensures Untouched(w, h.world, l) {
      assert Safe(w, h.world, dst, LocsOf(src, batch), l);
    }
  }

  /** Nothing has appeared outside dst. */
  ghost predicate NothingNew(w: World, w': World, dst: Folder) {
    forall l <- w'.server.mail :: l.folder != dst ==> l in w.server.mail
  }

  /** Every message of w but locs is where it was, as it was, and nothing has
      appeared outside dst. */
  ghost predicate UntouchedBut(w: World, w': World, dst: Folder, locs: set<Loc>) {
    NothingNew(w, w', dst) && forall l <- w.server.mail :: l !in locs ==> Untouched(w, w', l)
  }

  lemma UntouchedBoth(w: World, w1: World, w2: World, dst: Folder, locs: set<Loc>)
    requires w1.server == w.server && UntouchedBut(w1, w2, dst, locs)
    ensures UntouchedBut(w, w2, dst, locs)
  {
  }

  /** Every message of w outside the folders named is as it was, and nothing
      has appeared outside dst. */
  ghost predicate UntouchedElsewhere(w: World, w': World, dst: Folder, folders: set<Folder>) {
    NothingNew(w, w', dst) && forall l <- w.server.mail :: l.folder !in folders ==> Untouched(w, w', l)
  }

  lemma KeptElsewhere(w: World, w1: World, w2: World, dst: Folder, f: Folder, uids: seq<nat>)
    requires w1.server == w.server && (w2.server == w1.server || UntouchedBut(w1, w2, dst, LocsOf(f, uids)))
    ensures UntouchedElsewhere(w, w2, dst, {f})
  {
  }

  lemma UntouchedMore(w: World, w1: World, w2: World, dst: Folder, a: set<Loc>, b: set<Loc>, c: set<Loc>)
    requires UntouchedBut(w, w1, dst, a) && UntouchedBut(w1, w2, dst, b)
    ensures UntouchedBut(w, w2, dst, a + b)
    ensures a + b <= c ==> UntouchedBut(w, w2, dst, c)
  {
  }

  /** Rows are dropped only once a durable done line confirms the move. */
  ghost predicate RowsDropped(was: S.Table, now: S.Table, sealed: set<Loc>) {
    && (forall l <- now :: l in was && now[l] == was[l])
    && forall l <- was :: l in now || l in sealed
  }

  lemma BatchOfEligible(f: Folder, eligible: seq<nat>, start: nat, end: nat)
    requires Ascending(eligible) && start <= end <= |eligible|
    ensures Ascending(eligible[start..end])
    ensures LocsOf(f, eligible[..end]) == LocsOf(f, eligible[..start]) + LocsOf(f, eligible[start..end])
    ensures LocsOf(f, eligible[start..end]) !! LocsOf(f, eligible[..start])
    ensures LocsOf(f, eligible[..end]) <= LocsOf(f, eligible)
    ensures forall u <- eligible[start..end] :: u in eligible[start..]
    ensures forall u <- eligible[end..] :: u in eligible[start..] && Loc(f, u) !in LocsOf(f, eligible[start..end])
  {
    assert eligible[..end] == eligible[..start] + eligible[start..end];
    I.LocsOfConcat(f, eligible[..start], eligible[start..end]);
    assert eligible == eligible[..end] + eligible[end..];
    I.LocsOfConcat(f, eligible[..end], eligible[end..]);
    assert eligible[start..] == eligible[start..end] + eligible[end..];
  }

  lemma DroppedMore(rows0: S.Table, rows1: S.Table, rows2: S.Table, sealed1: set<Loc>, sealed2: set<Loc>,
                    gone: set<Loc>, locs: set<Loc>)
    requires RowsDropped(rows0, rows1, sealed1) && sealed1 <= sealed2
    requires rows1 == rows0 - gone
    requires rows2 == rows1 || (rows2 == rows1 - locs && locs <= sealed2)
    ensures RowsDropped(rows0, rows2, sealed2)
    ensures rows2 == rows1 - locs ==> rows2 == rows0 - (gone + locs)
  {
    assert rows1 - locs == rows0 - (gone + locs);
  }

  lemma NoneNamed(w: World, f: Folder, byUid: map<nat, S.Row>, eligible: seq<nat>, start: nat, end: nat)
    requires Ascending(eligible) && start <= end <= |eligible|
    requires forall u <- eligible[start..] :: Movable(w, f, byUid, u)
    ensures LocsOf(f, eligible[start..end]) !! Intents(w.log)
    ensures LocsOf(f, eligible[start..end]) <= w.server.mail.Keys
  {
    forall l | l in LocsOf(f, eligible[start..end]) ensures l !in Intents(w.log) && l in w.server.mail {
      assert l.uid in eligible[start..end] && l.uid in eligible[start..] by {
        BatchOfEligible(f, eligible, start, end);
      }
      assert Movable(w, f, byUid, l.uid);
    }
  }

  lemma StillMovable(w: World, w': World, dst: Folder, f: Folder, byUid: map<nat, S.Row>, eligible: seq<nat>,
      start: nat, end: nat)
    requires Ascending(eligible) && start <= end <= |eligible|
    requires forall u <- eligible[start..] :: Movable(w, f, byUid, u)
    requires UntouchedBut(w, w', dst, LocsOf(f, eligible[start..end]))
    requires Intents(w'.log) <= Intents(w.log) + LocsOf(f, eligible[start..end])
    ensures forall u <- eligible[end..] :: Movable(w', f, byUid, u)
  {
    BatchOfEligible(f, eligible, start, end);
  }

  /** byUid holds one row of msgs for each UID in msgs. */
  ghost predicate Indexed(folder: Folder, msgs: seq<S.Row>, byUid: map<nat, S.Row>) {
    && (forall u <- byUid :: byUid[u] in msgs && byUid[u].at == Loc(folder, u))
    && (forall m <- msgs :: m.at.uid in byUid)
  }

  /** The UIDs of one folder's rows, each once, ascending, and the first row of each. */
  method IndexRows(folder: Folder, msgs: seq<S.Row>) returns (uids: seq<nat>, byUid: map<nat, S.Row>)
    requires forall m <- msgs :: m.at.folder == folder
    ensures Ascending(uids) && forall u :: u in uids <==> u in byUid
    ensures Indexed(folder, msgs, byUid)
    ensures S.DistinctRows(msgs) ==> |uids| == |msgs|
  {
    uids, byUid := [], map[];
    for i := 0 to |msgs|
      invariant Ascending(uids) && forall u :: u in uids <==> u in byUid
      invariant Indexed(folder, msgs[..i], byUid)
      invariant S.DistinctRows(msgs) ==> |uids| == i
    {
      var m := msgs[i];
      IndexedMore(folder, msgs, i, byUid);
      if m.at.uid !in byUid {
        byUid, uids := byUid[m.at.uid := m], Insert(uids, m.at.uid);
      }
    }
    assert msgs[..|msgs|] == msgs;
  }

  lemma IndexedMore(folder: Folder, msgs: seq<S.Row>, i: nat, byUid: map<nat, S.Row>)
    requires i < |msgs| && msgs[i].at.folder == folder && Indexed(folder, msgs[..i], byUid)
    ensures var m := msgs[i];
      if m.at.uid in byUid then Indexed(folder, msgs[..i + 1], byUid) && !S.DistinctRows(msgs)
      else Indexed(folder, msgs[..i + 1], byUid[m.at.uid := m])
  {
    var m := msgs[i];
    assert msgs[..i + 1] == msgs[..i] + [m];
    if m.at.uid in byUid {
      var j :| 0 <= j < i && msgs[..i][j] == byUid[m.at.uid];
      assert msgs[j].at == msgs[i].at;
    }
  }

  /** eligible is the part of uids that passes every rule. */
  ghost predicate Passed(c: Config, uids: seq<nat>, byUid: map<nat, S.Row>, flags: map<nat, seq<string>>,
                         ids: map<nat, I.Identity>, waived: set<string>, eligible: seq<nat>)
    requires forall u <- uids :: u in byUid
  {
    && Ascending(eligible) && |eligible| <= |uids|
    && forall u :: u in eligible <==>
         u in uids && Ineligible(c, byUid[u], flags, ids, u, byUid[u].sender in waived).Eligible?
  }

  lemma PassedMore(c: Config, uids: seq<nat>, byUid: map<nat, S.Row>, flags: map<nat, seq<string>>,
                   ids: map<nat, I.Identity>, waived: set<string>, eligible: seq<nat>, i: nat)
    requires Ascending(uids) && i < |uids| && forall u <- uids :: u in byUid
    requires Passed(c, uids[..i], byUid, flags, ids, waived, eligible)
    ensures Passed(c, uids[..i + 1], byUid, flags, ids, waived,
              if Ineligible(c, byUid[uids[i]], flags, ids, uids[i], byUid[uids[i]].sender in waived).Eligible?
              then eligible + [uids[i]] else eligible)
  {
    assert forall u :: u in uids[..i + 1] <==> u in uids[..i] || u == uids[i];
    assert forall u :: u in eligible + [uids[i]] <==> u in eligible || u == uids[i];
    assert uids[i] !in uids[..i] && uids[i] !in eligible;
    forall k | 0 <= k < |eligible| ensures eligible[k] < uids[i] {
      assert eligible[k] in eligible && eligible[k] in uids[..i];
    }
    assert Ascending(eligible + [uids[i]]);
  }

  /** What every message a delete has recorded its intent to move must satisfy:
      it has a row in the folder's work, that row passes every rule against the
      server as it was when the folder was opened, the folder is not protected,
      and the server's UIDVALIDITY is the nonzero one the scan stored. */
  ghost predicate Authorised(c: Config, s: Server, cursors: map<Folder, S.Cursor>, noSource: set<string>,
                             waived: set<string>, msgs: seq<S.Row>, l: Loc)
  {
    && Readable(c, s, cursors, noSource, l.folder)
    && exists m :: m in msgs && m.at == l && Cleared(c, s, m, m.sender in waived)
  }

  /** A folder a delete may read from. */
  ghost predicate Readable(c: Config, s: Server, cursors: map<Folder, S.Cursor>, noSource: set<string>, f: Folder) {
    && c.lower(f) !in noSource
    && f in cursors && f in s.validity
    && cursors[f].validity != 0 && cursors[f].validity == s.validity[f]
  }

  /** Nothing that may go wrong concerns the message at l. */
  ghost predicate Answerable(h: Host, st: S.Store, l: Loc) {
    l.folder !in h.faults.closed && l.folder !in st.unread && l !in h.faults.silent
  }

  lemma NothingMoved(w: World, dst: Folder, locs: set<Loc>, rows: S.Table)
    ensures UntouchedBut(w, w, dst, locs)
    ensures RowsDropped(rows, rows, Sealed(w))
  {
  }

  /** Every message of the folders fs that may be moved is sealed, unless
      something may have gone wrong with it. */
  ghost predicate AllMoved(h: Host, st: S.Store, c: Config, s: Server, cursors: map<Folder, S.Cursor>, noSource: set<string>,
                           waived: set<string>, rows: seq<S.Row>, fs: set<Folder>, sealed: set<Loc>)
  {
    OneRowEach(rows) ==>
      forall l: Loc {:trigger Authorised(c, s, cursors, noSource, waived, rows, l)} ::
        (l.folder in fs && Answerable(h, st, l) && Authorised(c, s, cursors, noSource, waived, rows, l)) ==> l in sealed
  }

  /** Every message that is cleared and may not go unanswered is eligible. */
  ghost predicate Screened(h: Host, c: Config, s: Server, rows: seq<S.Row>, waived: set<string>, eligible: seq<nat>) {
    OneRowEach(rows) ==>
      forall m <- rows :: m.at !in h.faults.silent && Cleared(c, s, m, m.sender in waived) ==> m.at.uid in eligible
  }

  lemma ScreenedMoved(h: Host, st: S.Store, c: Config, s: Server, cursors: map<Folder, S.Cursor>, noSource: set<string>,
                      waived: set<string>, rows: seq<S.Row>, f: Folder, eligible: seq<nat>, sealed: set<Loc>)
    requires Screened(h, c, s, rows, waived, eligible) && LocsOf(f, eligible) <= sealed
    ensures AllMoved(h, st, c, s, cursors, noSource, waived, rows, {f}, sealed)
  {
    hide Cleared, Readable;
    if OneRowEach(rows) {
      forall l: Loc | l.folder == f && Answerable(h, st, l) && Authorised(c, s, cursors, noSource, waived, rows, l)
        ensures l in sealed
      {
        var m :| m in rows && m.at == l && Cleared(c, s, m, m.sender in waived);
        assert Loc(f, l.uid) in LocsOf(f, eligible);
      }
    }
  }

  /** From a folder that is shut nothing may be moved, or something may have gone wrong. */
  lemma ShutMoved(r: Runner, waived: set<string>, rows: seq<S.Row>, f: Folder, reason: string, sealed: set<Loc>)
    requires r.Shut(f, reason) && r.Wired()
    ensures AllMoved(r.h, r.st, r.c, r.h.world.server, r.st.cursors, r.noSource, waived, rows, {f}, sealed)
  {
  }

  /** Messages that are there and a log that confirms only what is gone. */
  lemma MovedCount(r: Run, w: World, f: Folder, byUid: map<nat, S.Row>, eligible: seq<nat>)
    requires Ahead(r, w) && Ascending(eligible) && forall u <- eligible :: Movable(w, f, byUid, u)
    ensures |Confirmed(w.log) + LocsOf(f, eligible)| == |Confirmed(w.log)| + |eligible|
  {
    forall l | l in Confirmed(w.log) ensures l !in LocsOf(f, eligible) { }
    LocsCountIs(f, eligible);
  }

  /** Rows for the same message are the same row. */
  ghost predicate OneRowEach(rows: seq<S.Row>) {
    forall a <- rows, b <- rows :: a.at == b.at ==> a == b
  }

  /** The rules pass every message that is cleared and answered for. */
  lemma PassedIsAll(c: Config, h: Host, uids: seq<nat>, byUid: map<nat, S.Row>, flags: map<nat, seq<string>>,
                    ids: map<nat, I.Identity>, waived: set<string>, eligible: seq<nat>,
                    folder: Folder, msgs: seq<S.Row>, m: S.Row)
    requires (forall u :: u in uids <==> u in byUid) && Passed(c, uids, byUid, flags, ids, waived, eligible)
    requires h.selected == folder && Indexed(folder, msgs, byUid) && OneRowEach(msgs)
    requires I.TrueFlags(h, uids, flags) && I.Answered(h, uids, flags.Keys)
    requires I.TrueIdentity(h, uids, ids) && I.Answered(h, uids, ids.Keys)
    requires m in msgs && m.at.folder == folder && m.at !in h.faults.silent
    requires Cleared(c, h.world.server, m, m.sender in waived)
    ensures m.at.uid in eligible
  {
    var u := m.at.uid;
    assert u in uids && byUid[u] == m && m.at == Loc(folder, u);
    EligibleIsCleared(c, h.world.server, m, flags, ids, m.sender in waived);
  }

  predicate IsRefused(c: Config, byUid: map<nat, S.Row>, flags: map<nat, seq<string>>, ids: map<nat, I.Identity>,
                      waived: set<string>, k: string, u: nat)
  {
    u in byUid && Ineligible(c, byUid[u], flags, ids, u, byUid[u].sender in waived) == Refused(k)
  }

  /** How many of uids are refused for the reason k. */
  ghost function RefusalCount(c: Config, uids: seq<nat>, byUid: map<nat, S.Row>, flags: map<nat, seq<string>>,
                              ids: map<nat, I.Identity>, waived: set<string>, k: string): nat
  {
    if uids == [] then 0
    else
      RefusalCount(c, uids[..|uids| - 1], byUid, flags, ids, waived, k)
      + if IsRefused(c, byUid, flags, ids, waived, k, uids[|uids| - 1]) then 1 else 0
  }

  /** Since was, each reason has been counted once for every UID refused for it. */
  ghost predicate Accounted(was: map<string, nat>, now: map<string, nat>, c: Config, uids: seq<nat>, byUid: map<nat, S.Row>,
                            flags: map<nat, seq<string>>, ids: map<nat, I.Identity>, waived: set<string>)
  {
    forall k :: At(now, k) == At(was, k) + RefusalCount(c, uids, byUid, flags, ids, waived, k)
  }

  lemma RefusedOnce(was: map<string, nat>, now: map<string, nat>, c: Config, uids: seq<nat>, byUid: map<nat, S.Row>,
                    flags: map<nat, seq<string>>, ids: map<nat, I.Identity>, waived: set<string>, i: nat, more: map<string, nat>)
    requires i < |uids| && Accounted(was, now, c, uids[..i], byUid, flags, ids, waived)
    requires forall k :: At(more, k) == At(now, k) + if IsRefused(c, byUid, flags, ids, waived, k, uids[i]) then 1 else 0
    ensures Accounted(was, more, c, uids[..i + 1], byUid, flags, ids, waived)
  {
    hide IsRefused, At;
    assert uids[..i + 1][..i] == uids[..i];
    forall k: string ensures At(more, k) == At(was, k) + RefusalCount(c, uids[..i + 1], byUid, flags, ids, waived, k) {
      assert At(now, k) == At(was, k) + RefusalCount(c, uids[..i], byUid, flags, ids, waived, k);
    }
  }

  lemma AccountedMore(was: map<string, nat>, now: map<string, nat>, c: Config, uids: seq<nat>, byUid: map<nat, S.Row>,
                      flags: map<nat, seq<string>>, ids: map<nat, I.Identity>, waived: set<string>, i: nat)
    requires i < |uids| && uids[i] in byUid && Accounted(was, now, c, uids[..i], byUid, flags, ids, waived)
    ensures var verdict := Ineligible(c, byUid[uids[i]], flags, ids, uids[i], byUid[uids[i]].sender in waived);
      Accounted(was, if verdict.Refused? then Bump(now, verdict.reason) else now, c, uids[..i + 1], byUid, flags, ids, waived)
  {
    hide Ineligible, Accounted;
    var verdict := Ineligible(c, byUid[uids[i]], flags, ids, uids[i], byUid[uids[i]].sender in waived);
    var more := if verdict.Refused? then Bump(now, verdict.reason) else now;
    if verdict.Refused? { TotalBump(now, verdict.reason); }
    RefusedOnce(was, now, c, uids, byUid, flags, ids, waived, i, more);
  }

  lemma PassedIsCleared(c: Config, h: Host, uids: seq<nat>, byUid: map<nat, S.Row>, flags: map<nat, seq<string>>,
                        ids: map<nat, I.Identity>, waived: set<string>, eligible: seq<nat>,
                        folder: Folder, msgs: seq<S.Row>)
    requires (forall u :: u in uids <==> u in byUid) && Passed(c, uids, byUid, flags, ids, waived, eligible)
    requires h.selected == folder && Indexed(folder, msgs, byUid)
    requires I.TrueFlags(h, uids, flags) && I.TrueIdentity(h, uids, ids)
    ensures forall u <- eligible :: u in byUid && byUid[u] in msgs && byUid[u].at == Loc(folder, u)
              && Cleared(c, h.world.server, byUid[u], byUid[u].sender in waived)
  {
    forall u | u in eligible ensures Cleared(c, h.world.server, byUid[u], byUid[u].sender in waived) {
      EligibleIsCleared(c, h.world.server, byUid[u], flags, ids, byUid[u].sender in waived);
    }
  }

  lemma EligibleAuthorised(c: Config, s: Server, cursors: map<Folder, S.Cursor>, noSource: set<string>, waived: set<string>,
                           msgs: seq<S.Row>, folder: Folder, byUid: map<nat, S.Row>, eligible: seq<nat>)
    requires Readable(c, s, cursors, noSource, folder)
    requires forall u <- eligible :: u in byUid && byUid[u] in msgs && byUid[u].at == Loc(folder, u)
               && Cleared(c, s, byUid[u], byUid[u].sender in waived)
    ensures forall l <- LocsOf(folder, eligible) :: Authorised(c, s, cursors, noSource, waived, msgs, l)
  {
  }

  function SkipLine(account: string, at: Loc, id: string, sender: string, reason: string): Line {
    Line(account, Skip, NoStatus, sender, at.folder, at.uid, [], id, NOWHERE, NOWHERE, reason)
  }

  class Runner {
    const h: Host
    const au: A.Auditor
    const st: S.Store
    const c: Config
    const trash: Folder        // the resolved destination
    const trashKnown: bool
    ghost const run: Run

    var moved: nat
    var skippedSenders: nat
    var skippedMessages: nat
    var reasons: map<string, nat>
    var foldersSkipped: seq<(Folder, string)>
    var noSource: set<string>
    var unsub: map<string, nat>

    constructor (host: Host, auditor: A.Auditor, store: S.Store, config: Config, dest: Folder, known: bool)
      requires auditor.host == host && auditor.account == config.account
      ensures h == host && au == auditor && st == store && c == config && trash == dest && trashKnown == known
      ensures run == Run(host.world.server, dest, config.account)
      ensures moved == skippedSenders == skippedMessages == 0 && reasons == map[] && foldersSkipped == [] && unsub == map[]
    {
      h, au, st, c, trash, trashKnown := host, auditor, store, config, dest, known;
      run := Run(host.world.server, dest, config.account);
      moved, skippedSenders, skippedMessages := 0, 0, 0;
      reasons, foldersSkipped, noSource, unsub := map[], [], {}, map[];
    }

    ghost predicate Wired()
      reads this, h, au, st
    {
      && au.host == h && au.account == run.account && run.trash == trash
      && h.Valid() && st.Valid()
    }

    /** The summary adds up and, as long as no log write failed, is what the log says. */
    ghost predicate Booked()
      reads this, h, au
    {
      && Total(reasons) == skippedSenders + skippedMessages
      && (!au.failed ==> AddsUp(Tally(h.world.log)))
    }

    /** The log adds up to what the summary says, reason by reason. */
    ghost predicate AddsUp(t: Counts)
      reads this
    {
      t.moved == moved && EqualCounts(t.skipped, reasons) && t.errors == 0 && t.unsubs == unsub
    }

    /** The log has failed if it had, or else it may. */
    ghost predicate FailedBy(was: bool)
      reads this, au
    {
      (was ==> au.failed) && (au.failed ==> was || h.faults.breaks)
    }

    /** Something may go wrong with a delete, or has already. */
    ghost predicate MayFail()
      reads this, h, au
    {
      || h.faults.breaks || st.breaks || au.failed
      || trash !in h.world.server.next || (!h.hasMove && !h.hasUidPlus)
    }

    /** Records one skipped message, in the summary and in the log. */
    method SkipMessage(reason: string, at: Loc, id: string, sender: string) returns (ghost es: History)
      requires Wired() && Booked()
      modifies this, au, h
      ensures Wired() && Booked()
      ensures h.Did(es) && LogsOnly(es) && h.selected == old(h.selected)
      ensures moved == old(moved) && skippedSenders == old(skippedSenders)
      ensures skippedMessages == old(skippedMessages) + 1 && reasons == Bump(old(reasons), reason)
      ensures h.world.log == old(h.world.log) ||
              h.world.log == old(h.world.log) + [SkipLine(run.account, at, id, sender, reason)]
      ensures FailedBy(old(au.failed))
      ensures foldersSkipped == old(foldersSkipped) && noSource == old(noSource) && unsub == old(unsub)
    {
      TotalBump(reasons, reason);
      skippedMessages, reasons := skippedMessages + 1, Bump(reasons, reason);
      var l := BLANK.(action := Skip, sender := sender, folder := at.folder, uid := at.uid, id := id, error := reason);
      TallySnoc(h.world.log, l.(account := au.account));
      assert l.(account := au.account) == SkipLine(run.account, at, id, sender, reason);
      es := au.Write(l);
    }

    /** Writes the pending line of every message of a batch. */
    method WriteIntents(folder: Folder, batch: seq<nat>, byUid: map<nat, S.Row>) returns (ghost es: History)
      requires Wired() && Ascending(batch)
      requires forall u <- batch :: Movable(h.world, folder, byUid, u)
      modifies au, h
      ensures Wired() && h.Did(es) && h.selected == old(h.selected)
      ensures Intends(run, old(h.world.server), folder, es) && Named(es) <= LocsOf(folder, batch)
      ensures FailedBy(old(au.failed))
      ensures !au.failed ==> Named(es) == LocsOf(folder, batch)
    {
      es := Start;
      ghost var w0, before := h.world, h.events;
      for i := 0 to |batch|
        invariant Wired() && h.Since(w0, before, es) && h.selected == old(h.selected)
        invariant Intends(run, w0.server, folder, es) && Named(es) <= LocsOf(folder, batch[..i])
        invariant FailedBy(old(au.failed))
        invariant !au.failed ==> Named(es) == LocsOf(folder, batch[..i])
      {
        assert Movable(w0, folder, byUid, batch[i]) && batch[i] !in batch[..i];
        var m := byUid[batch[i]];
        var l := BLANK.(action := Move, status := Pending, sender := m.sender, folder := folder,
                        uid := batch[i], id := m.id, src := folder, dst := trash);
        assert batch[..i + 1] == batch[..i] + [batch[i]];
        assert LocsOf(folder, batch[..i + 1]) == LocsOf(folder, batch[..i]) + {Loc(folder, batch[i])};
        ghost var b := au.Write(l);
        SinceAppend(h, w0, before, es, b);
        assert Append(es, b) == if b.Start? then es else Then(es, b.e);
        es := Append(es, b);
      }
      assert batch[..|batch|] == batch;
    }

    /** Write ahead: the intent to move every message of the batch is on disk
        before the MOVE goes out, or the run stops. */
    method RecordBatch(folder: Folder, batch: seq<nat>, byUid: map<nat, S.Row>) returns (ok: bool, ghost es: History)
      requires Wired() && Ascending(batch)
      requires forall u <- batch :: Movable(h.world, folder, byUid, u)
      modifies au, h
      ensures Wired() && h.Did(es) && h.selected == old(h.selected)
      ensures Recording(run, old(h.world), folder, LocsOf(folder, batch), es, ok)
      ensures FailedBy(old(au.failed)) && ok == !au.failed
    {
      es := WriteIntents(folder, batch, byUid);
      ghost var a, w := es, h.world;
      ghost var b;
      ok, b := au.Sync();
      SinceAppend(h, old(h.world), old(h.events), a, b);
      assert Append(a, b) == if ok then Then(a, Synced) else a;
      es := Append(a, b);
    }

    /** The confirmation of a batch that moved: one done line, made durable. */
    method ConfirmBatch(folder: Folder, batch: seq<nat>) returns (ok: bool, ghost es: History)
      requires Wired()
      modifies au, h
      ensures Wired() && h.Did(es) && h.selected == old(h.selected)
      ensures Confirming(run, folder, batch, es, ok)
      ensures FailedBy(old(au.failed)) && ok == !au.failed
    {
      var l := BLANK.(action := Move, status := Done, folder := folder, uids := batch, src := folder, dst := trash);
      es := au.Write(l);
      ghost var a := es;
      ghost var b;
      ok, b := au.Sync();
      SinceAppend(h, old(h.world), old(h.events), a, b);
      assert Append(a, b) == if ok then Then(a, Synced) else a;
      es := Append(a, b);
    }

    /** Moves a batch whose intents are durable, and confirms it or logs why not. */
    method MoveAndConfirm(folder: Folder, batch: seq<nat>)
      returns (ok: bool, ghost done: bool, ghost m: History, ghost moves: History, ghost z: History)
      requires Wired() && h.selected == folder && folder != trash
      requires LocsOf(folder, batch) <= h.world.server.mail.Keys
      modifies this`moved, au, h
      ensures Wired() && h.Did(Append(m, z)) && h.selected == folder
      ensures Afterwards(h.hasMove, run, old(h.world), folder, batch, m, moves, z, done, ok)
      ensures UntouchedBut(old(h.world), h.world, trash, LocsOf(folder, batch))
      ensures Intents(h.world.log) == old(Intents(h.world.log))
      ensures ok ==> LocsOf(folder, batch) <= Sealed(h.world)
      ensures FailedBy(old(au.failed))
      ensures moved == old(moved) + if done then |batch| else 0
      ensures !ok ==> old(MayFail())
      ensures ok ==> !au.failed && done && Open(h.world.log) == {}
                     && Confirmed(h.world.log) == old(Confirmed(h.world.log)) + LocsOf(folder, batch)
                     && Tally(h.world.log) == old(Tally(h.world.log)).(moved := old(Tally(h.world.log)).moved + |batch|)
    {
      hide Inv, InvThrough, ServerOk, Step, KeptThrough, Confined, Legal, Kept, Tally, Intents, Confirmed, Open,
          Confirming, HasCopy, Safe, Sealed;
      ghost var w := h.world;
      ok, m, moves := I.MoveUIDs(h, batch, trash);
      done, z := ok, Start;
      ghost var w1 := h.world;
      MovedBatch(h, w, folder, trash, batch, m, moves, done);
      PresentAll(w, folder, batch);
      assert Transit(h.hasMove, w, folder, run.trash, LocsOf(folder, batch), m, moves, done);
      if ok {
        moved := moved + |batch|;
        ok, z := ConfirmBatch(folder, batch);
        ConfirmingKeeps(run, w1, folder, batch, z, ok);
      } else {
        z := au.Write(BLANK.(action := Error, folder := folder, src := folder, dst := trash, error := "move failed"));
        LogsOnlyKeeps(w1, z);
      }
      SinceAppend(h, w, old(h.events), m, z);
    }

    /** One batch: record it, move it, confirm it, and only then drop its rows. */
    method MoveOneBatch(folder: Folder, batch: seq<nat>, byUid: map<nat, S.Row>) returns (ok: bool, ghost es: History)
      requires Wired() && Ascending(batch) && h.selected == folder && Ready(h.hasMove, run, h.world, folder, batch)
      requires forall u <- batch :: Movable(h.world, folder, byUid, u)
      modifies this`moved, au, h, st`rows
      ensures Wired() && h.Did(es) && h.selected == old(h.selected)
      ensures SoundThrough(h.hasMove, run, old(h.world), es)
      ensures UntouchedBut(old(h.world), h.world, trash, LocsOf(folder, batch))
      ensures Intents(h.world.log) <= old(Intents(h.world.log)) + LocsOf(folder, batch)
      ensures FailedBy(old(au.failed))
      ensures ok ==> LocsOf(folder, batch) <= Sealed(h.world)
      ensures !ok ==> old(MayFail())
      ensures ok ==> !au.failed && Open(h.world.log) == {} && moved == old(moved) + |batch|
                     && Confirmed(h.world.log) == old(Confirmed(h.world.log)) + LocsOf(folder, batch)
                     && Tally(h.world.log) == old(Tally(h.world.log)).(moved := old(Tally(h.world.log)).moved + |batch|)
                     && st.rows == old(st.rows) - LocsOf(folder, batch)
      ensures !ok ==> st.rows == old(st.rows) && old(moved) <= moved <= old(moved) + |batch|
    {
      hide Inv, Ahead, Landed, SoundThrough, ServerOk, Replay, LegalRun, Step, Afterwards, Sealed;
      ghost var w := h.world;
      ghost var a, m, moves, z, done := Start, Start, Start, Start, false;
      ok, a := RecordBatch(folder, batch, byUid);
      es := a;
      ghost var recorded, w1 := ok, h.world;
      RecordingKeeps(run, w, folder, LocsOf(folder, batch), a, recorded);
      if ok {
        ok, done, m, moves, z := MoveAndConfirm(folder, batch);
        es := Append(a, Append(m, z));
        SinceAppend(h, w, old(h.events), a, Append(m, z));
        UntouchedBoth(w, w1, h.world, trash, LocsOf(folder, batch));
      }
      BatchSound(h.hasMove, run, w, folder, batch, a, m, moves, z, recorded, done, ok);
      if ok {
        ok := st.DeleteMessageRows(folder, batch);
      }
    }

    /** Where the move half of deleteFolder stands: everything before start has
        moved and is confirmed, everything from start on is still to move. */
    ghost predicate Partway(w: World, before: History, es: History, rows0: S.Table, moved0: nat,
                            folder: Folder, eligible: seq<nat>, byUid: map<nat, S.Row>, start: nat)
      reads this, h, au, st
      requires start <= |eligible|
    {
      && Wired() && h.Since(w, before, es) && h.selected == folder
      && SoundThrough(h.hasMove, run, w, es) && w.synced <= |w.log|
      && (forall u <- eligible[start..] :: Movable(h.world, folder, byUid, u))
      && Intents(h.world.log) <= Intents(w.log) + LocsOf(folder, eligible[..start])
      && UntouchedBut(w, h.world, trash, LocsOf(folder, eligible[..start]))
      && RowsDropped(rows0, st.rows, Sealed(h.world)) && Open(h.world.log) == {}
      && moved == moved0 + start && st.rows == rows0 - LocsOf(folder, eligible[..start])
      && Confirmed(h.world.log) == Confirmed(w.log) + LocsOf(folder, eligible[..start])
      && LocsOf(folder, eligible[..start]) <= Sealed(h.world)
      && Tally(h.world.log) == Tally(w.log).(moved := Tally(w.log).moved + start)
    }

    method NextOfFolder(folder: Folder, eligible: seq<nat>, byUid: map<nat, S.Row>, start: nat, end: nat,
                        ghost w: World, ghost before: History, ghost es0: History, ghost rows0: S.Table, ghost moved0: nat)
      returns (ok: bool, ghost es: History)
      requires start < end <= |eligible| && end - start <= MOVE_BATCH && Ascending(eligible)
      requires folder != trash && folder != NOWHERE
      requires Partway(w, before, es0, rows0, moved0, folder, eligible, byUid, start)
      modifies this`moved, au, h, st`rows
      ensures Wired() && h.Since(w, before, es) && h.selected == folder
      ensures SoundThrough(h.hasMove, run, w, es)
      ensures Intents(h.world.log) <= Intents(w.log) + LocsOf(folder, eligible)
      ensures RowsDropped(rows0, st.rows, Sealed(h.world))
      ensures UntouchedBut(w, h.world, trash, LocsOf(folder, eligible))
      ensures FailedBy(old(au.failed))
      ensures moved0 <= moved <= moved0 + |eligible|
      ensures if ok then Partway(w, before, es, rows0, moved0, folder, eligible, byUid, end) else old(MayFail())
    {
      hide Inv, Ahead, Landed, SoundThrough, Sound, ServerOk, Replay, LegalRun, Step, RowsDropped, Intents, Confirmed, Sealed,
        Open, Tally, MayFail, Movable, UntouchedBut;
      ghost var w1, rows1 := h.world, st.rows;
      var batch := eligible[start..end];
      BatchOfEligible(folder, eligible, start, end);
      NoneNamed(w1, folder, byUid, eligible, start, end);
      SoundNow(h.hasMove, run, w, es0);
      ghost var b;
      ok, b := MoveOneBatch(folder, batch, byUid);
      es := Append(es0, b);
      SinceAppend(h, w, before, es0, b);
      SoundThroughAppend(h.hasMove, run, w, es0, b);
      LaterLog(w1, b);
      StillMovable(w1, h.world, trash, folder, byUid, eligible, start, end);
      UntouchedMore(w, w1, h.world, trash, LocsOf(folder, eligible[..start]), LocsOf(folder, batch), LocsOf(folder, eligible));
      DroppedMore(rows0, rows1, st.rows, Sealed(w1), Sealed(h.world), LocsOf(folder, eligible[..start]), LocsOf(folder, batch));
    }

    /** The move half of deleteFolder: the eligible messages, 200 at a time. */
    method MoveEligible(folder: Folder, eligible: seq<nat>, byUid: map<nat, S.Row>) returns (ok: bool, ghost es: History)
      requires Wired() && Ascending(eligible) && h.selected == folder && folder != trash && folder != NOWHERE
      requires forall u <- eligible :: Movable(h.world, folder, byUid, u)
      requires Sound(h.hasMove, run, h.world) && Open(h.world.log) == {}
      modifies this`moved, au, h, st`rows
      ensures Wired() && h.Did(es) && h.selected == old(h.selected)
      ensures SoundThrough(h.hasMove, run, old(h.world), es)
      ensures Intents(h.world.log) <= old(Intents(h.world.log)) + LocsOf(folder, eligible)
      ensures RowsDropped(old(st.rows), st.rows, Sealed(h.world))
      ensures UntouchedBut(old(h.world), h.world, trash, LocsOf(folder, eligible))
      ensures FailedBy(old(au.failed))
      ensures old(moved) <= moved <= old(moved) + |eligible|
      ensures ok ==> Open(h.world.log) == {} && LocsOf(folder, eligible) <= Sealed(h.world)
      ensures !ok ==> old(MayFail())
      ensures ok ==> moved == old(moved) + |eligible| && st.rows == old(st.rows) - LocsOf(folder, eligible)
                     && Confirmed(h.world.log) == old(Confirmed(h.world.log)) + LocsOf(folder, eligible)
                     && Tally(h.world.log) == old(Tally(h.world.log)).(moved := old(Tally(h.world.log)).moved + |eligible|)
    {
      hide Inv, Ahead, Landed, SoundThrough, ServerOk, Movable, Tally;
      ok, es := true, Start;
      ghost var w, before, rows0, moved0 := h.world, h.events, st.rows, moved;
      SoundStart(h.hasMove, run, w);
      assert Partway(w, before, es, rows0, moved0, folder, eligible, byUid, 0);
      var start := 0;
      while start < |eligible|
        invariant 0 <= start <= |eligible|
        invariant Partway(w, before, es, rows0, moved0, folder, eligible, byUid, start)
        invariant FailedBy(old(au.failed))
      {
        var end := start + MOVE_BATCH;
        if end > |eligible| { end := |eligible|; }
        ok, es := NextOfFolder(folder, eligible, byUid, start, end, w, before, es, rows0, moved0);
        if !ok { return; }
        start := end;
      }
      assert eligible[..|eligible|] == eligible;
    }

    /** Skips every message of a folder that cannot be worked on. */
    method SkipFolder(folder: Folder, reason: string, msgs: seq<S.Row>) returns (ghost es: History)
      requires Wired() && Booked()
      modifies this, au, h
      ensures Wired() && Booked() && h.Did(es) && LogsOnly(es) && h.selected == old(h.selected)
      ensures moved == old(moved) && skippedSenders == old(skippedSenders)
      ensures skippedMessages == old(skippedMessages) + |msgs|
      ensures foldersSkipped == old(foldersSkipped) + [(folder, reason)]
      ensures forall k :: At(reasons, k) == At(old(reasons), k) + if k == reason then |msgs| else 0
      ensures noSource == old(noSource) && unsub == old(unsub)
      ensures FailedBy(old(au.failed))
    {
      es := Start;
      ghost var w, before := h.world, h.events;
      foldersSkipped := foldersSkipped + [(folder, reason)];
      for i := 0 to |msgs|
        invariant Wired() && Booked() && h.Since(w, before, es) && LogsOnly(es) && h.selected == old(h.selected)
        invariant moved == old(moved) && skippedSenders == old(skippedSenders) && noSource == old(noSource) && unsub == old(unsub)
        invariant skippedMessages == old(skippedMessages) + i
        invariant foldersSkipped == old(foldersSkipped) + [(folder, reason)]
        invariant forall k :: At(reasons, k) == At(old(reasons), k) + if k == reason then i else 0
        invariant FailedBy(old(au.failed))
      {
        ghost var b := SkipMessage(reason, Loc(folder, msgs[i].at.uid), msgs[i].id, msgs[i].sender);
        SinceAppend(h, w, before, es, b);
        AppendLogsOnly(es, b);
        es := Append(es, b);
      }
    }

    /** The screening half of deleteFolder: which messages pass every rule, the
        others being skipped with the rule's reason. */
    method Screen(folder: Folder, uids: seq<nat>, byUid: map<nat, S.Row>, flags: map<nat, seq<string>>,
                  ids: map<nat, I.Identity>, waived: set<string>)
      returns (eligible: seq<nat>, ghost es: History)
      requires Wired() && Booked() && Ascending(uids) && forall u <- uids :: u in byUid
      modifies this, au, h
      ensures Wired() && Booked() && h.Did(es) && LogsOnly(es) && h.selected == old(h.selected)
      ensures Passed(c, uids, byUid, flags, ids, waived, eligible)
      ensures moved == old(moved) && skippedSenders == old(skippedSenders)
      ensures skippedMessages == old(skippedMessages) + |uids| - |eligible|
      ensures Accounted(old(reasons), reasons, c, uids, byUid, flags, ids, waived)
      ensures foldersSkipped == old(foldersSkipped) && noSource == old(noSource) && unsub == old(unsub)
      ensures FailedBy(old(au.failed))
    {
      eligible, es := [], Start;
      ghost var w, before := h.world, h.events;
      for i := 0 to |uids|
        invariant Wired() && Booked() && h.Since(w, before, es) && LogsOnly(es) && h.selected == old(h.selected)
        invariant Passed(c, uids[..i], byUid, flags, ids, waived, eligible)
        invariant Accounted(old(reasons), reasons, c, uids[..i], byUid, flags, ids, waived)
        invariant moved == old(moved) && skippedSenders == old(skippedSenders)
        invariant skippedMessages == old(skippedMessages) + i - |eligible|
        invariant foldersSkipped == old(foldersSkipped) && noSource == old(noSource) && unsub == old(unsub)
        invariant FailedBy(old(au.failed))
      {
        var u := uids[i];
        PassedMore(c, uids, byUid, flags, ids, waived, eligible, i);
        AccountedMore(old(reasons), reasons, c, uids, byUid, flags, ids, waived, i);
        var verdict := Ineligible(c, byUid[u], flags, ids, u, byUid[u].sender in waived);
        if verdict.Refused? {
          ghost var b := SkipMessage(verdict.reason, Loc(folder, u), byUid[u].id, byUid[u].sender);
          SinceAppend(h, w, before, es, b);
          AppendLogsOnly(es, b);
          es := Append(es, b);
        } else {
          eligible := eligible + [u];
        }
      }
      assert uids[..|uids|] == uids;
    }

    /** Why a folder is not opened: the first of these that is true of it. */
    ghost predicate Shut(folder: Folder, reason: string)
      reads this, h, st
    {
      if c.lower(folder) in noSource then reason == "protected folder (trash/spam/drafts/sent)"
      else if folder !in st.cursors then reason == "folder not in the local scan state"
      else
        || (reason == "folder not in the local scan state" && folder in st.unread)
        || (reason == "cannot select" && (folder !in h.world.server.next || folder in h.faults.closed))
        || (reason == "uidvalidity changed" && folder in h.world.server.validity &&
            (st.cursors[folder].validity == 0 || st.cursors[folder].validity != h.world.server.validity[folder]))
    }

    /** Opens a folder for deleting from, if the rules allow it at all. */
    method OpenFolder(folder: Folder) returns (open: bool, reason: string)
      requires Wired()
      modifies h`selected
      ensures Wired() && h.world == old(h.world) && h.events == old(h.events)
      ensures if open then h.selected == folder && Readable(c, h.world.server, st.cursors, noSource, folder)
              else Shut(folder, reason)
    {
      if c.lower(folder) in noSource { return false, REASON_PROTECTED_FOLDER; }
      var stored := st.GetFolder(folder);
      if !stored.Found? { return false, REASON_NOT_SCANNED; }
      var ok, validity := h.Select(folder);
      if !ok { return false, REASON_SELECT; }
      if stored.cursor.validity == 0 || validity != stored.cursor.validity { return false, REASON_UIDVALIDITY; }
      open, reason := true, "";
    }

    /** What a folder's deletes leave true, whether or not they finish. */
    twostate predicate Deleted(folder: Folder, msgs: seq<S.Row>, waived: set<string>, es: History)
      reads this, h, au, st
    {
      && (forall l <- Intents(h.world.log) :: l in old(Intents(h.world.log)) ||
            (l.folder == folder && Authorised(c, old(h.world.server), old(st.cursors), old(noSource), waived, msgs, l)))
      && RowsDropped(old(st.rows), st.rows, Sealed(h.world)) && st.cursors == old(st.cursors)
      && UntouchedElsewhere(old(h.world), h.world, trash, {folder})
      && SoundThrough(h.hasMove, run, old(h.world), es)
      && noSource == old(noSource) && unsub == old(unsub) && skippedSenders == old(skippedSenders)
      && FailedBy(old(au.failed))
    }

    /** What is counted as moved is what the log confirms. */
    twostate predicate MovedIsConfirmed()
      reads this, h
    {
      moved + |old(Confirmed(h.world.log))| == old(moved) + |Confirmed(h.world.log)|
    }

    /** Deletes from one folder what the rules allow of msgs. */
    method DeleteFolder(folder: Folder, msgs: seq<S.Row>, waived: set<string>) returns (ok: bool, ghost es: History)
      requires Wired() && Booked() && c.lower(trash) in noSource
      requires forall m <- msgs :: m.at.folder == folder
      requires Open(h.world.log) == {} && forall l <- Intents(h.world.log) :: l.folder != folder
      requires Sound(h.hasMove, run, h.world)
      modifies this, au, h, st`rows
      ensures Wired() && h.Did(es) && Deleted(folder, msgs, waived, es)
      ensures if ok then Booked() && Open(h.world.log) == {} && MovedIsConfirmed()
                      && AllMoved(h, st, c, old(h.world.server), old(st.cursors), old(noSource), waived, msgs,
                          {folder}, Sealed(h.world))
              else old(MayFail())
      ensures foldersSkipped == old(foldersSkipped) ||
              exists reason :: old(Shut(folder, reason)) && foldersSkipped == old(foldersSkipped) + [(folder, reason)]
      ensures ok && S.DistinctRows(msgs) ==> moved + skippedMessages == old(moved + skippedMessages) + |msgs|
    {
      var open, reason := OpenFolder(folder);
      if open {
        ok, es := DeleteOpened(folder, msgs, waived);
      } else {
        ok := true;
        ShutMoved(this, waived, msgs, folder, reason, Sealed(h.world));
        es := SkipFolder(folder, reason, msgs);
        LogsOnlyKeeps(old(h.world), es);
        LaterLog(old(h.world), es);
        SoundLogsOnly(h.hasMove, run, old(h.world), es);
      }
    }

    method DeleteOpened(folder: Folder, msgs: seq<S.Row>, waived: set<string>) returns (ok: bool, ghost es: History)
      requires Wired() && Booked() && h.selected == folder && folder != trash && folder != NOWHERE
      requires Readable(c, h.world.server, st.cursors, noSource, folder)
      requires forall m <- msgs :: m.at.folder == folder
      requires Open(h.world.log) == {} && forall l <- Intents(h.world.log) :: l.folder != folder
      requires Sound(h.hasMove, run, h.world)
      modifies this, au, h, st`rows
      ensures Wired() && h.Did(es) && Deleted(folder, msgs, waived, es)
      ensures if ok then Booked() && Open(h.world.log) == {} && MovedIsConfirmed()
                      && AllMoved(h, st, c, old(h.world.server), old(st.cursors), old(noSource), waived, msgs,
                          {folder}, Sealed(h.world))
              else old(MayFail())
      ensures foldersSkipped == old(foldersSkipped)
      ensures ok && S.DistinctRows(msgs) ==> moved + skippedMessages == old(moved + skippedMessages) + |msgs|
    {
      hide Inv, InvThrough, ServerOk, Legal, Cleared, Ineligible, Replay, LegalRun, Tally, Intents, Confirmed,
        Open, Authorised, Movable, Untouched, UntouchedBut, UntouchedElsewhere, Ahead, SoundThrough, Sealed, AllMoved, Screened,
        Readable;
      ghost var w, before := h.world, h.events;
      var eligible, byUid;
      ok, eligible, byUid, es := ScreenFolder(folder, msgs, waived);
      ghost var a := es;
      LogsOnlyKeeps(w, a);
      LaterLog(w, a);
      SoundLogsOnly(h.hasMove, run, w, a);
      EligibleAuthorised(c, w.server, st.cursors, noSource, waived, msgs, folder, byUid, eligible);
      KeptElsewhere(w, h.world, h.world, trash, folder, eligible);
      if !ok { return; }
      ghost var w1, b := h.world, Start;
      SoundNow(h.hasMove, run, w, a);
      ok, b := MoveScreened(folder, eligible, byUid);
      es := Append(a, b);
      SinceAppend(h, w, before, a, b);
      LaterLog(w1, b);
      KeptElsewhere(w, w1, h.world, trash, folder, eligible);
      SoundThroughAppend(h.hasMove, run, w, a, b);
      if ok {
        ScreenedMoved(h, st, c, w.server, st.cursors, noSource, waived, msgs, folder, eligible, Sealed(h.world));
      }
    }

    /** What follows the screening: nothing if nothing is left or the log has failed. */
    method MoveScreened(folder: Folder, eligible: seq<nat>, byUid: map<nat, S.Row>) returns (ok: bool, ghost es: History)
      requires Wired() && Booked() && Ascending(eligible) && h.selected == folder && folder != trash && folder != NOWHERE
      requires forall u <- eligible :: Movable(h.world, folder, byUid, u)
      requires Sound(h.hasMove, run, h.world) && Open(h.world.log) == {}
      modifies this`moved, au, h, st`rows
      ensures Wired() && h.Did(es) && SoundThrough(h.hasMove, run, old(h.world), es)
      ensures Intents(h.world.log) <= old(Intents(h.world.log)) + LocsOf(folder, eligible)
      ensures RowsDropped(old(st.rows), st.rows, Sealed(h.world))
      ensures UntouchedBut(old(h.world), h.world, trash, LocsOf(folder, eligible))
      ensures FailedBy(old(au.failed))
      ensures if ok then Booked() && Open(h.world.log) == {} && MovedIsConfirmed() && LocsOf(folder, eligible) <= Sealed(h.world)
              else old(MayFail())
      ensures ok ==> moved == old(moved) + |eligible|
    {
      hide Inv, Landed, SoundThrough, ServerOk, Movable, Tally, Intents, Open, UntouchedBut, RowsDropped, Sealed, Confirmed;
      es := Start;
      SoundStart(h.hasMove, run, h.world);
      NothingMoved(h.world, trash, LocsOf(folder, eligible), st.rows);
      if eligible == [] { return true, es; }
      if au.failed { return false, es; }
      MovedCount(run, h.world, folder, byUid, eligible);
      ok, es := MoveEligible(folder, eligible, byUid);
    }

    /** Answers from the server, then the rules: which messages may move. */
    method ScreenFolder(folder: Folder, msgs: seq<S.Row>, waived: set<string>)
      returns (ok: bool, eligible: seq<nat>, byUid: map<nat, S.Row>, ghost es: History)
      requires Wired() && Booked() && h.selected == folder
      requires forall m <- msgs :: m.at.folder == folder
      requires forall l <- Intents(h.world.log) :: l.folder != folder
      modifies this, au, h
      ensures Wired() && Booked() && h.Did(es) && LogsOnly(es) && h.selected == folder
      ensures Ascending(eligible) && forall u <- eligible :: Movable(h.world, folder, byUid, u)
      ensures forall u <- eligible :: u in byUid && byUid[u] in msgs && byUid[u].at == Loc(folder, u)
                && Cleared(c, old(h.world.server), byUid[u], byUid[u].sender in waived)
      ensures moved == old(moved) && skippedSenders == old(skippedSenders) && noSource == old(noSource) && unsub == old(unsub)
      ensures foldersSkipped == old(foldersSkipped)
      ensures if ok then Screened(h, c, old(h.world.server), msgs, waived, eligible) else h.faults.breaks
      ensures ok && S.DistinctRows(msgs) ==> skippedMessages == old(skippedMessages) + |msgs| - |eligible|
      ensures FailedBy(old(au.failed))
    {
      eligible, es := [], Start;
      var uids;
      uids, byUid := IndexRows(folder, msgs);
      var flags, ids;
      ok, flags := I.FetchFlags(h, uids);
      if !ok { return; }
      ok, ids := I.FetchIdentity(h, uids);
      if !ok { return; }
      ghost var s := h.world.server;
      eligible, es := Screen(folder, uids, byUid, flags, ids, waived);
      LogsOnlyKeeps(old(h.world), es);
      PassedIsCleared(c, h, uids, byUid, flags, ids, waived, eligible, folder, msgs);
      if OneRowEach(msgs) {
        forall m | m in msgs && m.at !in h.faults.silent && Cleared(c, s, m, m.sender in waived)
          ensures m.at.uid in eligible
        {
          PassedIsAll(c, h, uids, byUid, flags, ids, waived, eligible, folder, msgs, m);
        }
      }
    }
  }
}
