/** The IMAP client (internal/imapx/imapx.go). */
module Imapx {
  import opened Mailbox
  import opened Audit
  import opened Events
  import opened Moves
  import opened Host

  const MOVE_BATCH := 200
  const FETCH_BATCH := 500

  ghost function Flat(chunks: seq<seq<nat>>): seq<nat> {
    if chunks == [] then [] else Flat(chunks[..|chunks| - 1]) + chunks[|chunks| - 1]
  }

  /** Splits uids into batches of at most size. */
  method ChunkUids(uids: seq<nat>, size: int) returns (out: seq<seq<nat>>)
    ensures Flat(out) == uids
    ensures forall c <- out :: 0 < |c| <= if size <= 0 then 1 else size
    ensures forall i :: 0 <= i < |out| - 1 ==> |out[i]| == if size <= 0 then 1 else size
  {
    var step := if size <= 0 then 1 else size;
    out := [];
    var i := 0;
    while i < |uids|
      invariant 0 <= i
      invariant Flat(out) == if i <= |uids| then uids[..i] else uids
      invariant forall c <- out :: 0 < |c| <= step
      invariant i < |uids| ==> forall k :: 0 <= k < |out| ==> |out[k]| == step
      invariant forall k :: 0 <= k < |out| - 1 ==> |out[k]| == step
    {
      var hi := i + step;
      if hi > |uids| { hi := |uids|; }
      assert uids[..i] + uids[i..hi] == uids[..hi];
      Snoc(out, uids[i..hi]);
      out := out + [uids[i..hi]];
      i := i + step;
    }
  }

  lemma LocsOfConcat(f: Folder, a: seq<nat>, b: seq<nat>)
    ensures LocsOf(f, a + b) == LocsOf(f, a) + LocsOf(f, b)
  {
    assert forall u :: u in a + b <==> u in a || u in b;
    forall l | l in LocsOf(f, a) + LocsOf(f, b) ensures l in LocsOf(f, a + b) {
      assert l.uid in a + b;
    }
  }

  /** Between two batches of a move: every message of w0 is accounted for, the
      server is as the moves so far would have left it, and no message that has
      moved is still in the source. A move within one folder is not covered. */
  ghost predicate Ledger(w0: World, w: World, src: Folder, dst: Folder, asked: set<Loc>, moves: History) {
    src != dst ==>
      && WorldOk(w0)
      && AllTracked(w0, w, dst, asked, Acted(moves), Acted(moves))
      && IsCommand(moves, Moving, src, dst) && LegalRun(w0, moves)
      && Replay(w0, moves).server == w.server && Replay(w0, moves).came == w.came
      && (forall l <- w.server.mail :: l.folder == src ==> l in w0.server.mail && l !in Acted(moves))
      && Acted(moves) <= asked
  }

  /** A UID MOVE carries the ledger on, whether or not it finishes. */
  lemma MoveKeepsLedger(w0: World, w: World, src: Folder, dst: Folder, asked: set<Loc>, moves: History, b: History)
    requires Ledger(w0, w, src, dst, asked, moves) && src != dst
    requires LegalRun(w, b) && IsCommand(b, Moving, src, dst) && Acted(b) <= asked * w.server.mail.Keys
    ensures KeptThrough(w0, w, b, dst, asked)
    ensures Ledger(w0, Replay(w, b), src, dst, asked, Append(moves, b))
    ensures Acted(Append(moves, b)) == Acted(moves) + Acted(b)
  {
    CommandSources(b, Moving, src, dst);
    CommandKeeps(w0, w, b, Moving, src, dst, asked, Acted(moves), Acted(moves));
    AppendActed(moves, b);
    AppendCommand(moves, b, Moving, src, dst);
    AppendReplay(w0, moves, b);
    ServerOnly(w, Replay(w0, moves), b);
    OutsideDst(w, b, Moving, src, dst);
  }

  /** COPY, STORE and UID EXPUNGE lose nothing at any point, however far each
      got; all three complete, they amount to a move. */
  lemma FallbackKeepsLedger(w0: World, w: World, src: Folder, dst: Folder, asked: set<Loc>, moves: History,
                            cs: History, fs: History, xs: History)
    requires Ledger(w0, w, src, dst, asked, moves) && src != dst
    requires LegalRun(w, cs) && IsCommand(cs, Copying, src, dst) && Acted(cs) <= asked * w.server.mail.Keys
    requires LegalRun(Replay(w, cs), fs) && IsCommand(fs, Flagging, src, dst) && Acted(fs) <= Acted(cs)
    requires LegalRun(Replay(Replay(w, cs), fs), xs) && IsCommand(xs, Expunging, src, dst) && Acted(xs) <= Acted(cs)
    ensures KeptThrough(w0, w, Append(Append(cs, fs), xs), dst, asked)
    ensures Acted(fs) == Acted(cs) && Acted(xs) == Acted(cs) ==>
              && Ledger(w0, Replay(Replay(Replay(w, cs), fs), xs), src, dst, asked, Append(moves, AsMoves(cs)))
              && Acted(Append(moves, AsMoves(cs))) == Acted(moves) + Acted(cs)
  {
    var w1 := Replay(w, cs);
    var w2 := Replay(w1, fs);
    var gone := Acted(moves);
    CommandSources(cs, Copying, src, dst);
    CommandKeeps(w0, w, cs, Copying, src, dst, asked, gone, gone);
    CommandKeeps(w0, w1, fs, Flagging, src, dst, asked, gone, gone + Acted(cs));
    CommandKeeps(w0, w2, xs, Expunging, src, dst, asked, gone + Acted(fs), gone + Acted(cs));
    KeptThroughAppend(w0, w, cs, fs, dst, asked);
    AppendReplay(w, cs, fs);
    KeptThroughAppend(w0, w, Append(cs, fs), xs, dst, asked);
    if Acted(fs) == Acted(cs) && Acted(xs) == Acted(cs) {
      FallbackLedger(w0, w, src, dst, asked, moves, cs, fs, xs);
    }
  }

  lemma FallbackLedger(w0: World, w: World, src: Folder, dst: Folder, asked: set<Loc>, moves: History,
                       cs: History, fs: History, xs: History)
    requires Ledger(w0, w, src, dst, asked, moves) && src != dst
    requires LegalRun(w, cs) && IsCommand(cs, Copying, src, dst) && Acted(cs) <= asked * w.server.mail.Keys
    requires LegalRun(Replay(w, cs), fs) && IsCommand(fs, Flagging, src, dst) && Acted(fs) == Acted(cs)
    requires LegalRun(Replay(Replay(w, cs), fs), xs) && IsCommand(xs, Expunging, src, dst) && Acted(xs) == Acted(cs)
    requires AllTracked(w0, Replay(Replay(Replay(w, cs), fs), xs), dst, asked,
               Acted(moves) + Acted(cs) + Acted(cs), Acted(moves) + Acted(cs))
    ensures Ledger(w0, Replay(Replay(Replay(w, cs), fs), xs), src, dst, asked, Append(moves, AsMoves(cs)))
    ensures Acted(Append(moves, AsMoves(cs))) == Acted(moves) + Acted(cs)
  {
    var ms := AsMoves(cs);
    FallbackIsMove(w, cs, fs, xs, src, dst);
    CommandSources(cs, Copying, src, dst);
    AppendActed(moves, ms);
    AppendCommand(moves, ms, Moving, src, dst);
    AppendReplay(w0, moves, ms);
    ServerOnly(w, Replay(w0, moves), ms);
    OutsideDst(w, ms, Moving, src, dst);
    assert Acted(moves) + Acted(cs) + Acted(cs) == Acted(moves) + Acted(cs);
  }

  lemma OrderlyMove(es: History, src: Folder, dst: Folder)
    requires IsCommand(es, Moving, src, dst)
    ensures Orderly(es) && Sources(es) == Acted(es)
  {
    OrderlyCommand(Start, es, Moving, src, dst);
    StartAppend(es);
  }

  lemma OrderlyFallback(cs: History, fs: History, xs: History, src: Folder, dst: Folder)
    requires IsCommand(cs, Copying, src, dst) && IsCommand(fs, Flagging, src, dst) && IsCommand(xs, Expunging, src, dst)
    requires Acted(fs) <= Acted(cs)
    ensures Orderly(Append(Append(cs, fs), xs)) && Sources(Append(Append(cs, fs), xs)) == Acted(cs)
  {
    OrderlyCommand(Start, cs, Copying, src, dst);
    StartAppend(cs);
    OrderlyCommand(cs, fs, Flagging, src, dst);
    OrderlyCommand(Append(cs, fs), xs, Expunging, src, dst);
  }

  lemma StartAppend(h: History)
    ensures Append(Start, h) == h
  {
  }

  /** One batch of MoveUIDs: UID MOVE when the server has it, otherwise COPY,
      STORE \Deleted and UID EXPUNGE of the same UIDs. moves is the moves the
      call amounts to so far. */
  method MoveBatch(h: Host, batch: seq<nat>, dest: Folder, ghost w0: World, ghost asked: set<Loc>, ghost moves0: History)
    returns (ok: bool, ghost es: History, ghost moves: History)
    requires h.Valid() && LocsOf(h.selected, batch) <= asked
    requires Ledger(w0, h.world, h.selected, dest, asked, moves0)
    modifies h
    ensures h.Did(es) && h.selected == old(h.selected) && h.SameLog(old(h.world))
    ensures Confined(es, h.selected, dest, LocsOf(h.selected, batch))
    ensures h.selected != dest ==> KeptThrough(w0, old(h.world), es, dest, asked)
    ensures h.selected != dest ==> Orderly(es) && Sources(es) <= LocsOf(h.selected, batch) * old(h.world.server.mail.Keys)
    ensures h.hasMove ==> moves == Append(moves0, es)
    ensures ok || h.hasMove ==> Ledger(w0, h.world, h.selected, dest, asked, moves)
    ensures ok && h.selected != dest ==>
              Acted(moves) == Acted(moves0) + LocsOf(h.selected, batch) * old(h.world.server.mail.Keys)
    ensures !ok ==> h.faults.breaks || dest !in h.world.server.next
  {
    ghost var src, w := h.selected, h.world;
    if h.hasMove {
      ok, es := h.UidMove(batch, dest);
      moves := Append(moves0, es);
      CommandConfined(es, Moving, src, dest, LocsOf(src, batch));
      if src != dest {
        MoveKeepsLedger(w0, w, src, dest, asked, moves0, es);
        OrderlyMove(es, src, dest);
      }
    } else {
      ok, es, moves := CopyBatch(h, batch, dest, w0, asked, moves0);
    }
  }

  method CopyBatch(h: Host, batch: seq<nat>, dest: Folder, ghost w0: World, ghost asked: set<Loc>, ghost moves0: History)
    returns (ok: bool, ghost es: History, ghost moves: History)
    requires h.Valid() && LocsOf(h.selected, batch) <= asked
    requires Ledger(w0, h.world, h.selected, dest, asked, moves0)
    modifies h
    ensures h.Did(es) && h.selected == old(h.selected) && h.SameLog(old(h.world))
    ensures Confined(es, h.selected, dest, LocsOf(h.selected, batch))
    ensures h.selected != dest ==> KeptThrough(w0, old(h.world), es, dest, asked)
    ensures h.selected != dest ==> Orderly(es) && Sources(es) <= LocsOf(h.selected, batch) * old(h.world.server.mail.Keys)
    ensures ok ==> Ledger(w0, h.world, h.selected, dest, asked, moves)
    ensures ok && h.selected != dest ==>
              Acted(moves) == Acted(moves0) + LocsOf(h.selected, batch) * old(h.world.server.mail.Keys)
    ensures !ok ==> h.faults.breaks || dest !in h.world.server.next
  {
    ghost var src, w := h.selected, h.world;
    ghost var locs := LocsOf(src, batch);
    ghost var cs, fs, xs;
    ok, cs, fs, xs := CopyThenExpunge(h, batch, dest);
    es, moves := Append(Append(cs, fs), xs), moves0;
    CommandConfined(cs, Copying, src, dest, locs);
    CommandConfined(fs, Flagging, src, dest, locs);
    CommandConfined(xs, Expunging, src, dest, locs);
    AppendConfined(cs, fs, src, dest, locs);
    AppendConfined(Append(cs, fs), xs, src, dest, locs);
    AppendReplay(w, cs, fs);
    AppendReplay(w, Append(cs, fs), xs);
    if src != dest {
      FallbackKeepsLedger(w0, w, src, dest, asked, moves0, cs, fs, xs);
      OrderlyFallback(cs, fs, xs, src, dest);
      if ok { moves := Append(moves0, AsMoves(cs)); }
    }
  }

  /** The three commands of the fallback, each run only when the one before
      it was answered with OK. */
  method CopyThenExpunge(h: Host, batch: seq<nat>, dest: Folder)
    returns (ok: bool, ghost cs: History, ghost fs: History, ghost xs: History)
    requires h.Valid()
    modifies h
    ensures h.Did(Append(Append(cs, fs), xs)) && h.selected == old(h.selected) && h.SameLog(old(h.world))
    ensures IsCommand(cs, Copying, h.selected, dest) && LegalRun(old(h.world), cs)
    ensures IsCommand(fs, Flagging, h.selected, dest) && LegalRun(Replay(old(h.world), cs), fs)
    ensures IsCommand(xs, Expunging, h.selected, dest) && LegalRun(Replay(Replay(old(h.world), cs), fs), xs)
    ensures Acted(cs) <= old(h.Present(batch))
    ensures Acted(fs) + Acted(xs) <= LocsOf(h.selected, batch)
    ensures h.selected != dest ==> Acted(fs) <= Acted(cs) && Acted(xs) <= Acted(cs)
    ensures ok && h.selected != dest ==> Acted(cs) == Acted(fs) == Acted(xs) == old(h.Present(batch))
    ensures !ok ==> h.faults.breaks || dest !in h.world.server.next
  {
    ghost var w := h.world;
    fs, xs := Start, Start;
    ok, cs := h.UidCopy(batch, dest);
    if h.selected != dest { OutsideDst(w, cs, Copying, h.selected, dest); }
    if ok {
      assert h.selected != dest ==> h.Present(batch) == Acted(cs);
      ok, fs, xs := StoreThenExpunge(h, batch, dest);
    }
    SinceAppend(h, w, old(h.events), cs, Append(fs, xs));
    AppendAppend(cs, fs, xs);
  }

  method StoreThenExpunge(h: Host, batch: seq<nat>, ghost dest: Folder)
    returns (ok: bool, ghost fs: History, ghost xs: History)
    requires h.Valid()
    modifies h
    ensures h.Did(Append(fs, xs)) && h.selected == old(h.selected) && h.SameLog(old(h.world))
    ensures IsCommand(fs, Flagging, h.selected, dest) && LegalRun(old(h.world), fs)
    ensures IsCommand(xs, Expunging, h.selected, dest) && LegalRun(Replay(old(h.world), fs), xs)
    ensures Acted(xs) <= old(h.Present(batch)) && Acted(fs) <= old(h.Present(batch))
    ensures if ok then Acted(fs) == Acted(xs) == old(h.Present(batch)) else h.faults.breaks
  {
    ghost var w := h.world;
    xs := Start;
    ok, fs := h.UidStoreDeleted(batch, dest);
    CommandResult(w, fs, Flagging, h.selected, dest);
    if ok {
      assert h.Expungeable(batch) == Acted(fs);
      ok, xs := h.UidExpunge(batch, dest);
    }
    SinceAppend(h, w, old(h.events), fs, xs);
  }

  lemma LedgerStart(w0: World, src: Folder, dst: Folder, asked: set<Loc>)
    requires WorldOk(w0)
    ensures Ledger(w0, w0, src, dst, asked, Start)
    ensures src != dst ==> KeptThrough(w0, w0, Start, dst, asked)
  {
  }

  lemma ConfinedMore(h: History, src: Folder, dst: Folder, locs: set<Loc>, more: set<Loc>)
    requires Confined(h, src, dst, locs) && locs <= more
    ensures Confined(h, src, dst, more)
  {
  }

  /** Where MoveUIDs stands after some of its batches. */
  ghost predicate Underway(h: Host, w0: World, before: History, es: History, dest: Folder, asked: set<Loc>,
                           moves: History, done: seq<nat>)
    reads h
  {
    && h.Since(w0, before, es) && h.SameLog(w0)
    && Confined(es, h.selected, dest, asked)
    && Ledger(w0, h.world, h.selected, dest, asked, moves)
    && (h.selected != dest ==> KeptThrough(w0, w0, es, dest, asked))
    && (h.selected != dest ==> Acted(moves) == LocsOf(h.selected, done) * w0.server.mail.Keys)
    && (h.selected != dest ==> Orderly(es) && Sources(es) <= Acted(moves))
    && (h.hasMove ==> moves == es)
  }

  /** Moves uids out of the selected mailbox into dest, 200 at a time.

      moves is what the call amounts to: a UID MOVE of distinct messages of
      uids. On a server with MOVE it is exactly what happened, also when the
      call fails; on one without, the server ends as moves would have left it
      whenever the call succeeds. */
  method MoveUIDs(h: Host, uids: seq<nat>, dest: Folder) returns (ok: bool, ghost es: History, ghost moves: History)
    requires h.Valid()
    modifies h
    ensures h.Did(es) && h.selected == old(h.selected) && h.SameLog(old(h.world))
    ensures !h.hasMove && !h.hasUidPlus && uids != [] ==> !ok && es == Start
    // only the given messages are acted on, and every arrival is in dest
    ensures Confined(es, h.selected, dest, LocsOf(h.selected, uids))
    // at every point every message is still in the source or in dest
    ensures h.selected != dest ==> KeptThrough(old(h.world), old(h.world), es, dest, LocsOf(h.selected, uids))
    // no message is copied twice, and none is marked before it is copied
    ensures h.selected != dest ==> Orderly(es)
    // the call is a move of exactly the list
    ensures h.hasMove ==> moves == es
    ensures (ok || h.hasMove) && h.selected != dest ==>
              && IsCommand(moves, Moving, h.selected, dest) && LegalRun(old(h.world), moves)
              && h.world.server == Replay(old(h.world), moves).server
              && h.world.came == Replay(old(h.world), moves).came
              && Acted(moves) <= LocsOf(h.selected, uids) * old(h.world.server.mail.Keys)
    ensures ok && h.selected != dest ==> Acted(moves) == LocsOf(h.selected, uids) * old(h.world.server.mail.Keys)
    // it fails only if a command did, or for want of the mailbox or of the commands
    ensures !ok ==> h.faults.breaks || dest !in h.world.server.next || (!h.hasMove && !h.hasUidPlus)
  {
    ghost var w0, asked := h.world, LocsOf(h.selected, uids);
    es, moves := Start, Start;
    LedgerStart(w0, h.selected, dest, asked);
    if uids == [] { return true, es, moves; }
    if !h.hasMove && !h.hasUidPlus { return false, es, moves; }
    var chunks := ChunkUids(uids, MOVE_BATCH);
    ok, es, moves := MoveChunks(h, chunks, dest);
    if (ok || h.hasMove) && h.selected != dest { LedgerMeans(w0, h.world, h.selected, dest, asked, moves); }
  }

  lemma LedgerMeans(w0: World, w: World, src: Folder, dst: Folder, asked: set<Loc>, moves: History)
    requires Ledger(w0, w, src, dst, asked, moves) && src != dst
    ensures IsCommand(moves, Moving, src, dst) && LegalRun(w0, moves)
    ensures w.server == Replay(w0, moves).server && w.came == Replay(w0, moves).came
    ensures Acted(moves) <= asked * w0.server.mail.Keys
  {
    forall l | l in Acted(moves) ensures l in w0.server.mail {
      MovesWhatIsThere(w0, moves, src, dst, l);
    }
  }

  lemma {:induction false} MovesWhatIsThere(w: World, es: History, src: Folder, dst: Folder, l: Loc)
    requires WorldOk(w) && LegalRun(w, es) && IsCommand(es, Moving, src, dst) && src != dst && l in Acted(es)
    ensures l in w.server.mail
  {
    if l in Acted(es.past) {
      MovesWhatIsThere(w, es.past, src, dst, l);
    } else {
      OutsideDst(w, es.past, Moving, src, dst);
    }
  }

  method MoveChunks(h: Host, chunks: seq<seq<nat>>, dest: Folder) returns (ok: bool, ghost es: History, ghost moves: History)
    requires h.Valid()
    modifies h
    ensures h.Did(es) && h.selected == old(h.selected) && h.SameLog(old(h.world))
    ensures Confined(es, h.selected, dest, LocsOf(h.selected, Flat(chunks)))
    ensures h.selected != dest ==> KeptThrough(old(h.world), old(h.world), es, dest, LocsOf(h.selected, Flat(chunks)))
    ensures h.selected != dest ==> Orderly(es)
    ensures h.hasMove ==> moves == es
    ensures ok || h.hasMove ==>
              Ledger(old(h.world), h.world, h.selected, dest, LocsOf(h.selected, Flat(chunks)), moves)
    ensures ok && h.selected != dest ==>
              Acted(moves) == LocsOf(h.selected, Flat(chunks)) * old(h.world.server.mail.Keys)
    ensures !ok ==> h.faults.breaks || dest !in h.world.server.next
  {
    ghost var w0, before, asked := h.world, h.events, LocsOf(h.selected, Flat(chunks));
    es, moves := Start, Start;
    LedgerStart(w0, h.selected, dest, asked);
    var i := 0;
    assert chunks[..0] == [] && chunks[..|chunks|] == chunks;
    while i < |chunks|
      invariant 0 <= i <= |chunks| && h.selected == old(h.selected)
      invariant Underway(h, w0, before, es, dest, asked, moves, Flat(chunks[..i]))
    {
      var cancelled := h.Breaks();
      if cancelled { return false, es, moves; }
      BatchOf(chunks, i, h.selected);
      ok, es, moves := NextBatch(h, chunks[i], dest, w0, before, es, asked, moves, Flat(chunks[..i]));
      if !ok { return false, es, moves; }
      i := i + 1;
    }
    ok := true;
  }

  lemma {:induction false} BatchOf(chunks: seq<seq<nat>>, i: nat, f: Folder)
    requires i < |chunks|
    ensures Flat(chunks[..i + 1]) == Flat(chunks[..i]) + chunks[i]
    ensures LocsOf(f, chunks[i]) <= LocsOf(f, Flat(chunks))
    decreases |chunks|
  {
    assert chunks[..i + 1] == chunks[..i] + [chunks[i]];
    Snoc(chunks[..i], chunks[i]);
    var last := |chunks| - 1;
    LocsOfConcat(f, Flat(chunks[..last]), chunks[last]);
    if i < last {
      assert chunks[..last][..i] == chunks[..i];
      BatchOf(chunks[..last], i, f);
    }
  }

  method NextBatch(h: Host, batch: seq<nat>, dest: Folder, ghost w0: World, ghost before: History, ghost es0: History,
                   ghost asked: set<Loc>, ghost moves0: History, ghost done: seq<nat>)
    returns (ok: bool, ghost es: History, ghost moves: History)
    requires Underway(h, w0, before, es0, dest, asked, moves0, done)
    requires LocsOf(h.selected, batch) <= asked
    modifies h
    ensures h.Since(w0, before, es) && h.SameLog(w0) && h.selected == old(h.selected)
    ensures Confined(es, h.selected, dest, asked)
    ensures h.selected != dest ==> KeptThrough(w0, w0, es, dest, asked) && Orderly(es)
    ensures h.hasMove ==> moves == es
    ensures ok || h.hasMove ==> Ledger(w0, h.world, h.selected, dest, asked, moves)
    ensures ok ==> Underway(h, w0, before, es, dest, asked, moves, done + batch)
    ensures !ok ==> h.faults.breaks || dest !in h.world.server.next
  {
    ghost var w, b := h.world, Start;
    ok, b, moves := MoveBatch(h, batch, dest, w0, asked, moves0);
    es := Append(es0, b);
    SinceAppend(h, w0, before, es0, b);
    ConfinedMore(b, h.selected, dest, LocsOf(h.selected, batch), asked);
    AppendConfined(es0, b, h.selected, dest, asked);
    if h.selected != dest {
      KeptThroughAppend(w0, w0, es0, b, dest, asked);
      LedgerApart(w0, w, h.selected, dest, asked, moves0, es0, b, batch);
      OrderlyAppend(es0, b);
      if ok {
        LocsOfConcat(h.selected, done, batch);
        BatchPresent(w0, w, h.selected, dest, asked, moves0, batch, done);
      }
    }
  }

  /** What a batch copies, no batch before it did: those messages have moved. */
  lemma LedgerApart(w0: World, w: World, src: Folder, dst: Folder, asked: set<Loc>, moves: History, a: History, b: History,
                    batch: seq<nat>)
    requires Ledger(w0, w, src, dst, asked, moves) && src != dst
    requires Sources(a) <= Acted(moves) && Sources(b) <= LocsOf(src, batch) * w.server.mail.Keys
    ensures Sources(a) !! Sources(b)
  {
  }

  lemma BatchPresent(w0: World, w: World, src: Folder, dst: Folder, asked: set<Loc>, moves: History,
                     batch: seq<nat>, done: seq<nat>)
    requires Ledger(w0, w, src, dst, asked, moves) && src != dst
    requires Acted(moves) == LocsOf(src, done) * w0.server.mail.Keys
    ensures Acted(moves) + LocsOf(src, batch) * w.server.mail.Keys ==
            (LocsOf(src, done) + LocsOf(src, batch)) * w0.server.mail.Keys
  {
    forall l | l in LocsOf(src, batch) && l in w0.server.mail && l !in Acted(moves)
      ensures l in w.server.mail
    {
      assert Track(w0, w, dst, asked, l, true, false);
    }
  }

  /** What a message says about itself. */
  datatype Identity = Identity(id: string, subject: string)

  /** Of the messages named by uids that the mailbox has, those the server may
      not leave out of its answers have their UIDs in out. */
  ghost predicate Answered(h: Host, uids: seq<nat>, out: set<nat>)
    reads h
  {
    forall u <- uids :: Loc(h.selected, u) in h.world.server.mail && Loc(h.selected, u) !in h.faults.silent ==> u in out
  }

  lemma AnsweredMore(h: Host, uids: seq<nat>, out: set<nat>, u: nat, now: set<nat>)
    requires Answered(h, uids, out) && (now == out || now == out + {u})
    requires Loc(h.selected, u) in h.world.server.mail && Loc(h.selected, u) !in h.faults.silent ==> u in now
    ensures Answered(h, uids + [u], now)
  {
  }

  ghost predicate TrueFlags(h: Host, uids: seq<nat>, out: map<nat, seq<string>>)
    reads h
  {
    forall u <- out ::
      u in uids && Loc(h.selected, u) in h.world.server.mail && out[u] == h.world.server.mail[Loc(h.selected, u)].flags
  }

  /** The current flags of uids. A message the server no longer has, or does
      not answer for, is simply absent. */
  method FetchFlags(h: Host, uids: seq<nat>) returns (ok: bool, out: map<nat, seq<string>>)
    ensures if ok then TrueFlags(h, uids, out) && Answered(h, uids, out.Keys) else h.faults.breaks
  {
    ok, out := true, map[];
    var chunks := ChunkUids(uids, FETCH_BATCH);
    for i := 0 to |chunks|
      invariant Answered(h, Flat(chunks[..i]), out.Keys) && TrueFlags(h, uids, out)
    {
      var broken := h.Breaks();
      if broken { return false, map[]; }
      BatchOf(chunks, i, h.selected);
      out := FlagsOf(h, chunks[i], out, uids, Flat(chunks[..i]));
    }
    assert chunks[..|chunks|] == chunks;
  }

  /** The answers to one FETCH of flags. */
  method FlagsOf(h: Host, batch: seq<nat>, out0: map<nat, seq<string>>, ghost uids: seq<nat>, ghost done: seq<nat>)
    returns (out: map<nat, seq<string>>)
    requires TrueFlags(h, uids, out0) && Answered(h, done, out0.Keys) && LocsOf(h.selected, batch) <= LocsOf(h.selected, uids)
    ensures TrueFlags(h, uids, out) && Answered(h, done + batch, out.Keys)
  {
    out := out0;
    assert done + batch[..0] == done;
    for j := 0 to |batch|
      invariant TrueFlags(h, uids, out) && Answered(h, done + batch[..j], out.Keys)
    {
      var at, skipped := Loc(h.selected, batch[j]), *;
      ghost var before := out.Keys;
      assert at in LocsOf(h.selected, batch);
      if at in h.world.server.mail && !(skipped && at in h.faults.silent) {
        out := out[at.uid := h.world.server.mail[at].flags];
      }
      AnsweredMore(h, done + batch[..j], before, at.uid, out.Keys);
      assert done + batch[..j + 1] == done + batch[..j] + [at.uid];
    }
    assert batch[..|batch|] == batch;
  }

  ghost predicate TrueIdentity(h: Host, uids: seq<nat>, out: map<nat, Identity>)
    reads h
  {
    forall u <- out ::
      && u in uids && Loc(h.selected, u) in h.world.server.mail
      && out[u].id == h.world.server.mail[Loc(h.selected, u)].id
      && out[u].subject == h.world.server.mail[Loc(h.selected, u)].subject
  }

  /** The Message-ID and subject of uids, absent likewise. */
  method FetchIdentity(h: Host, uids: seq<nat>) returns (ok: bool, out: map<nat, Identity>)
    ensures if ok then TrueIdentity(h, uids, out) && Answered(h, uids, out.Keys) else h.faults.breaks
  {
    ok, out := true, map[];
    var chunks := ChunkUids(uids, FETCH_BATCH);
    for i := 0 to |chunks|
      invariant Answered(h, Flat(chunks[..i]), out.Keys) && TrueIdentity(h, uids, out)
    {
      var broken := h.Breaks();
      if broken { return false, map[]; }
      BatchOf(chunks, i, h.selected);
      out := IdentityOf(h, chunks[i], out, uids, Flat(chunks[..i]));
    }
    assert chunks[..|chunks|] == chunks;
  }

  /** The answers to one FETCH of two header fields. */
  method IdentityOf(h: Host, batch: seq<nat>, out0: map<nat, Identity>, ghost uids: seq<nat>, ghost done: seq<nat>)
    returns (out: map<nat, Identity>)
    requires TrueIdentity(h, uids, out0) && Answered(h, done, out0.Keys)
    requires LocsOf(h.selected, batch) <= LocsOf(h.selected, uids)
    ensures TrueIdentity(h, uids, out) && Answered(h, done + batch, out.Keys)
  {
    out := out0;
    assert done + batch[..0] == done;
    for j := 0 to |batch|
      invariant TrueIdentity(h, uids, out) && Answered(h, done + batch[..j], out.Keys)
    {
      var at, skipped := Loc(h.selected, batch[j]), *;
      ghost var before := out.Keys;
      assert at in LocsOf(h.selected, batch);
      if at in h.world.server.mail && !(skipped && at in h.faults.silent) {
        var m := h.world.server.mail[at];
        out := out[at.uid := Identity(m.id, m.subject)];
      }
      AnsweredMore(h, done + batch[..j], before, at.uid, out.Keys);
      assert done + batch[..j + 1] == done + batch[..j] + [at.uid];
    }
    assert batch[..|batch|] == batch;
  }

  /** UID SEARCH by Message-ID: every message of the selected mailbox with that
      id, in no particular order. */
  method SearchMessageId(h: Host, id: string) returns (ok: bool, uids: seq<nat>)
    ensures id == "" ==> !ok
    ensures !ok ==> id == "" || h.faults.breaks
    ensures ok ==> forall u :: u in uids <==> Loc(h.selected, u) in Copies(h.world.server, h.selected, id)
  {
    uids := [];
    var broken := h.Breaks();
    ok := !broken && id != "";
    if !ok { return; }
    var rest := set l | l in h.world.server.mail && l.folder == h.selected && h.world.server.mail[l].id == id;
    while rest != {}
      invariant rest <= Copies(h.world.server, h.selected, id)
      invariant forall u :: u in uids <==>
          Loc(h.selected, u) in Copies(h.world.server, h.selected, id) && Loc(h.selected, u) !in rest
    {
      var l :| l in rest;
      assert l == Loc(h.selected, l.uid);
      rest, uids := rest - {l}, uids + [l.uid];
    }
  }
}
