/** Undoing a run (internal/undo/undo.go): moving what its audit log records
    back out of Trash. UIDs change on a move, so copies are found by Message-ID. */
module Undo {
  import opened Mailbox
  import opened Audit
  import opened Events
  import opened Moves
  import opened Host
  import opened Uids
  import opened WriteAhead
  import opened UndoPlan
  import opened Rules
  import A = Auditor
  import I = Imapx

  /** Whatever the path and however far it gets: every message acted on is a
      chosen one, every arrival is in the folder chosen for it, and no line
      written is a move line. */
  ghost predicate Within(es: History, chosen: map<Loc, Folder>) {
    match es
    case Start => true
    case Then(past, e) =>
      Within(past, chosen) &&
      match e
      case Wrote(l) => l.action != Move
      case Synced => false
      case Moved(at, to) => at in chosen && to.folder == chosen[at]
      case Copied(at, to) => at in chosen && to.folder == chosen[at]
      case Flagged(at) => at in chosen
      case Expunged(at) => at in chosen
  }

  /** Chosen messages moved, each at most once, to the folder chosen for it,
      with log lines in between. */
  ghost predicate Restoring(es: History, chosen: map<Loc, Folder>) {
    match es
    case Start => true
    case Then(past, e) =>
      && Restoring(past, chosen)
      && (|| (e.Wrote? && e.line.action != Move)
          || (e.Moved? && e.at in chosen && e.at !in Acted(past) && e.to.folder == chosen[e.at]))
  }

  lemma WithinAppend(a: History, b: History, chosen: map<Loc, Folder>)
    requires Within(a, chosen) && Within(b, chosen)
    ensures Within(Append(a, b), chosen)
  {
  }

  lemma {:induction false} RestoringAppend(a: History, b: History, chosen: map<Loc, Folder>)
    requires Restoring(a, chosen) && Restoring(b, chosen) && Acted(a) !! Acted(b)
    ensures Restoring(Append(a, b), chosen)
  {
    if b.Then? {
      RestoringAppend(a, b.past, chosen);
      AppendActed(a, b.past);
    }
  }

  lemma ConfinedWithin(es: History, dst: Folder, src: Folder, locs: set<Loc>, chosen: map<Loc, Folder>)
    requires Confined(es, dst, src, locs)
    requires forall l <- locs :: l in chosen && chosen[l] == src
    ensures Within(es, chosen)
  {
  }

  lemma CommandRestoring(es: History, dst: Folder, src: Folder, chosen: map<Loc, Folder>)
    requires IsCommand(es, Moving, dst, src)
    requires forall l <- Acted(es) :: l in chosen && chosen[l] == src
    ensures Restoring(es, chosen)
  {
  }

  lemma LogsWithin(es: History, chosen: map<Loc, Folder>)
    requires LogsOnly(es)
    ensures Within(es, chosen) && Restoring(es, chosen) && Acted(es) == {}
    ensures forall w :: LegalRun(w, es)
  {
  }

  /** A line of es says that the message at l went back to src. */
  ghost predicate Tells(es: History, l: Loc, src: Folder) {
    match es
    case Start => false
    case Then(past, e) =>
      || Tells(past, l, src)
      || (&& e.Wrote? && e.line.action == Action.Undo && e.line.error == ""
          && Loc(e.line.folder, e.line.uid) == l && e.line.src == l.folder && e.line.dst == src)
  }

  /** Of each of these messages a line says that it went where it was to go. */
  ghost predicate AllTell(es: History, chosen: map<Loc, Folder>, locs: set<Loc>) {
    forall l <- locs :: l in chosen ==> Tells(es, l, chosen[l])
  }

  lemma TellsAppend(a: History, b: History, l: Loc, src: Folder)
    ensures Tells(Append(a, b), l, src) <==> Tells(a, l, src) || Tells(b, l, src)
  {
  }

  lemma AllTellAppend(a: History, b: History, chosen: map<Loc, Folder>, la: set<Loc>, lb: set<Loc>)
    requires AllTell(a, chosen, la) && AllTell(b, chosen, lb)
    ensures AllTell(Append(a, b), chosen, la + lb)
  {
    forall l | l in la + lb && l in chosen ensures Tells(Append(a, b), l, chosen[l]) { TellsAppend(a, b, l, chosen[l]); }
  }

  /** One undo line for each message restored. */
  method LogRestored(h: Host, au: A.Auditor, uids: seq<nat>, dst: Folder, src: Folder) returns (ghost es: History)
    requires h.Valid() && au.host == h
    modifies h, au
    ensures h.Did(es) && h.selected == old(h.selected) && LogsOnly(es) && (old(au.failed) ==> au.failed)
    ensures !au.failed ==> forall u <- uids :: Tells(es, Loc(dst, u), src)
  {
    es := Start;
    ghost var w, before := h.world, h.events;
    for i := 0 to |uids|
      invariant h.Since(w, before, es) && LogsOnly(es) && h.selected == old(h.selected) && (old(au.failed) ==> au.failed)
      invariant !au.failed ==> forall u <- uids[..i] :: Tells(es, Loc(dst, u), src)
    {
      ghost var es0 := es;
      ghost var b := au.Write(BLANK.(action := Action.Undo, folder := dst, uid := uids[i], src := dst, dst := src));
      SinceAppend(h, w, before, es, b);
      AppendLogsOnly(es, b);
      es := Append(es, b);
      forall u ensures Tells(es, Loc(dst, u), src) <==> Tells(es0, Loc(dst, u), src) || Tells(b, Loc(dst, u), src) {
        TellsAppend(es0, b, Loc(dst, u), src);
      }
    }
  }

  /** What moving the messages uids of dst to src amounts to, on its own. */
  ghost predicate Restored(w: World, w': World, moves: History, chosen: map<Loc, Folder>, locs: set<Loc>, all: bool) {
    && Restoring(moves, chosen) && LegalRun(w, moves) && w'.server == Replay(w, moves).server
    && Acted(moves) <= locs && (all ==> Acted(moves) == locs)
  }

  lemma MovedBack(w: World, w1: World, w2: World, m: History, z: History, dst: Folder, src: Folder,
                  chosen: map<Loc, Folder>, locs: set<Loc>, all: bool)
    requires IsCommand(m, Moving, dst, src) && LegalRun(w, m) && w1.server == Replay(w, m).server
    requires Acted(m) <= locs && (all ==> Acted(m) == locs) && LogsOnly(z) && w2 == Replay(w1, z)
    requires forall l <- locs :: l in chosen && chosen[l] == src
    ensures Restored(w, w2, Append(m, z), chosen, locs, all)
  {
    hide Step;
    CommandRestoring(m, dst, src, chosen);
    LogsWithin(z, chosen);
    RestoringAppend(m, z, chosen);
    AppendActed(m, z);
    AppendReplay(w, m, z);
    LogsOnlyKeeps(w1, z);
    LogsOnlyKeeps(Replay(w, m), z);
  }

  /** The messages of dst that a move out of it does not name are still there. */
  ghost predicate Remain(w: World, w': World, dst: Folder, locs: set<Loc>) {
    forall l <- w.server.mail :: l.folder == dst && l !in locs ==> l in w'.server.mail
  }

  lemma OthersRemain(w: World, m: History, w1: World, dst: Folder, src: Folder, locs: set<Loc>)
    requires WorldOk(w) && LegalRun(w, m) && IsCommand(m, Moving, dst, src) && src != dst
    requires Acted(m) <= locs && w1.server == Replay(w, m).server
    ensures Remain(w, w1, dst, locs)
  {
    OutsideDst(w, m, Moving, dst, src);
  }

  /** A move into one of these folders may fail. */
  ghost predicate CannotMove(h: Host, srcs: set<Folder>)
    reads h
  {
    h.faults.breaks || (!h.hasMove && !h.hasUidPlus) || exists f <- srcs :: f !in h.world.server.next
  }

  /** Moves the messages uids of the selected mailbox dst back to src, and logs it. */
  method MoveBack(h: Host, au: A.Auditor, uids: seq<nat>, dst: Folder, src: Folder, ghost chosen: map<Loc, Folder>)
    returns (ok: bool, ghost es: History, ghost moves: History)
    requires h.Valid() && au.host == h && h.selected == dst
    requires forall l <- LocsOf(dst, uids) :: l in chosen && chosen[l] == src
    modifies h, au
    ensures h.Did(es) && h.selected == dst && Within(es, chosen)
    ensures h.hasMove ==> moves == es
    ensures (old(au.failed) ==> au.failed) && (ok && !au.failed ==> AllTell(es, chosen, LocsOf(dst, uids)))
    ensures (ok || h.hasMove) && src != dst && LocsOf(dst, uids) <= old(h.world.server.mail.Keys) ==>
              && Restored(old(h.world), h.world, moves, chosen, LocsOf(dst, uids), ok)
              && Remain(old(h.world), h.world, dst, LocsOf(dst, uids))
    ensures !ok ==> CannotMove(h, {src})
  {
    hide Step, Replay, LegalRun, ServerOk, KeptThrough, Legal;
    ghost var w, locs := h.world, LocsOf(dst, uids);
    ghost var b, m, z;
    ok, b, m := I.MoveUIDs(h, uids, src);
    ghost var w1 := h.world;
    ConfinedWithin(b, dst, src, locs, chosen);
    if locs <= w.server.mail.Keys { assert locs * w.server.mail.Keys == locs; }
    if ok {
      z := LogRestored(h, au, uids, dst, src);
      if !au.failed {
        assert AllTell(z, chosen, locs) by { assert forall l <- locs :: l == Loc(dst, l.uid) && l.uid in uids; }
        AllTellAppend(b, z, chosen, {}, locs);
        assert {} + locs == locs;
      }
    } else {
      z := au.Write(BLANK.(action := Error, folder := dst, src := dst, dst := src, error := "move failed"));
    }
    LogsOnlyKeeps(w1, z);
    SinceAppend(h, w, old(h.events), b, z);
    LogsWithin(z, chosen);
    WithinAppend(b, z, chosen);
    es, moves := Append(b, z), Append(m, z);
    if (ok || h.hasMove) && src != dst && locs <= w.server.mail.Keys {
      MovedBack(w, w1, h.world, m, z, dst, src, chosen, locs, ok);
      OthersRemain(w, m, w1, dst, src, locs);
    }
  }

  /** The chosen messages of the folders done. */
  ghost function Back(chosen: map<Loc, Folder>, done: set<Folder>): set<Loc> {
    set l | l in chosen && chosen[l] in done
  }

  /** found lists, by folder to restore to, the UIDs in dst of the chosen messages. */
  ghost predicate Listed(found: map<Folder, seq<nat>>, chosen: map<Loc, Folder>, dst: Folder) {
    && (forall l <- chosen :: l.folder == dst && chosen[l] in found && l.uid in found[chosen[l]])
    && (forall src <- found :: found[src] != [])
    && forall src <- found, u <- found[src] :: Loc(dst, u) in chosen && chosen[Loc(dst, u)] == src
  }

  /** Between two folders of a restore: the messages of the folders done have
      moved, the others are still in dst. A restore of dst into itself is not
      covered. */
  ghost predicate PutBack(w: World, w': World, moves: History, chosen: map<Loc, Folder>, dst: Folder, done: set<Folder>) {
    dst !in chosen.Values ==>
      && Restored(w, w', moves, chosen, Back(chosen, done), true)
      && forall l <- chosen :: chosen[l] !in done ==> l in w'.server.mail
  }

  lemma BackMore(found: map<Folder, seq<nat>>, chosen: map<Loc, Folder>, dst: Folder, done: set<Folder>, src: Folder,
      uids: seq<nat>)
    requires Listed(found, chosen, dst) && src in found && src !in done
    requires Ascending(uids) && forall u :: u in uids <==> u in found[src]
    ensures LocsOf(dst, uids) == Back(chosen, {src}) && LocsOf(dst, uids) !! Back(chosen, done)
    ensures Back(chosen, done + {src}) == Back(chosen, done) + LocsOf(dst, uids)
    ensures |Back(chosen, done + {src})| == |Back(chosen, done)| + |uids|
  {
    LocsCountIs(dst, uids);
    forall l | l in Back(chosen, {src}) ensures l in LocsOf(dst, uids) {
      assert l == Loc(dst, l.uid) && l.uid in uids;
    }
    assert Back(chosen, done + {src}) == Back(chosen, done) + LocsOf(dst, uids);
  }

  lemma PutBackMore(w: World, w1: World, w2: World, moves: History, m: History, chosen: map<Loc, Folder>, dst: Folder,
                    done: set<Folder>, src: Folder, locs: set<Loc>, all: bool)
    requires PutBack(w, w1, moves, chosen, dst, done) && dst !in chosen.Values
    requires locs == Back(chosen, {src}) && locs !! Back(chosen, done) && forall l <- chosen :: l.folder == dst
    requires Restored(w1, w2, m, chosen, locs, all) && Remain(w1, w2, dst, locs)
    ensures Restored(w, w2, Append(moves, m), chosen, Back(chosen, done + {src}), all)
    ensures all ==> PutBack(w, w2, Append(moves, m), chosen, dst, done + {src})
  {
    hide Step, LegalRun, Replay;
    RestoringAppend(moves, m, chosen);
    AppendActed(moves, m);
    AppendReplay(w, moves, m);
    ServerOnly(w1, Replay(w, moves), m);
    assert Back(chosen, done + {src}) == Back(chosen, done) + locs;
  }

  /** Where the restore of one Trash folder stands. */
  ghost predicate Midway(h: Host, au: A.Auditor, w: World, before: History, es: History, moves: History,
                         chosen: map<Loc, Folder>, dst: Folder, done: set<Folder>)
    reads h, au
  {
    && au.host == h && h.Since(w, before, es) && h.selected == dst && Within(es, chosen)
    && (!au.failed ==> AllTell(es, chosen, Back(chosen, done)))
    && (h.hasMove ==> moves == es)
    && PutBack(w, h.world, moves, chosen, dst, done)
  }

  /** What restoring the chosen messages amounts to. A UID MOVE of distinct
      chosen messages: exactly what happened on a server with MOVE, also when
      the restore fails; on one without, what the server ends as if it
      succeeds. In full, it is all of them. */
  ghost predicate Outcome(hasMove: bool, w: World, w': World, es: History, moves: History, chosen: map<Loc, Folder>,
                          dst: Folder, ok: bool) {
    && Within(es, chosen)
    && (hasMove ==> moves == es)
    && ((ok || hasMove) && dst !in chosen.Values ==> Restored(w, w', moves, chosen, chosen.Keys, ok))
  }

  method NextSource(h: Host, au: A.Auditor, uids: seq<nat>, dst: Folder, src: Folder, ghost found: map<Folder, seq<nat>>,
                    ghost chosen: map<Loc, Folder>, ghost w: World, ghost before: History, ghost es0: History,
                    ghost moves0: History, ghost done: set<Folder>)
    returns (ok: bool, ghost es: History, ghost moves: History)
    requires Midway(h, au, w, before, es0, moves0, chosen, dst, done)
    requires Listed(found, chosen, dst) && src in found && src !in done && chosen.Keys <= w.server.mail.Keys
    requires Ascending(uids) && forall u :: u in uids <==> u in found[src]
    modifies h, au
    ensures if ok then Midway(h, au, w, before, es, moves, chosen, dst, done + {src}) else CannotMove(h, {src})
    ensures h.Since(w, before, es) && Outcome(h.hasMove, w, h.world, es, moves, chosen, dst, false)
    ensures old(au.failed) ==> au.failed
  {
    hide Step, Replay, LegalRun, ServerOk, AllTell;
    ghost var w1 := h.world;
    BackMore(found, chosen, dst, done, src, uids);
    ghost var b, m;
    ok, b, m := MoveBack(h, au, uids, dst, src, chosen);
    es, moves := Append(es0, b), Append(moves0, m);
    if ok && !au.failed { AllTellAppend(es0, b, chosen, Back(chosen, done), LocsOf(dst, uids)); }
    SinceAppend(h, w, before, es0, b);
    WithinAppend(es0, b, chosen);
    if dst !in chosen.Values {
      assert found[src][0] in found[src];
      assert LocsOf(dst, uids) <= w1.server.mail.Keys;
      if (ok || h.hasMove) && src != dst {
        PutBackMore(w, w1, h.world, moves0, m, chosen, dst, done, src, LocsOf(dst, uids), ok);
      }
    }
  }

  lemma MidwayStart(h: Host, au: A.Auditor, chosen: map<Loc, Folder>, dst: Folder)
    requires h.Valid() && au.host == h && h.selected == dst && chosen.Keys <= h.world.server.mail.Keys
    ensures Midway(h, au, h.world, h.events, Start, Start, chosen, dst, {})
    ensures Back(chosen, {}) == {}
  {
    assert Back(chosen, {}) == {};
  }

  lemma MidwayEnd(h: Host, au: A.Auditor, w: World, before: History, es: History, moves: History,
                  found: map<Folder, seq<nat>>, chosen: map<Loc, Folder>, dst: Folder)
    requires Midway(h, au, w, before, es, moves, chosen, dst, found.Keys) && Listed(found, chosen, dst)
    ensures h.Since(w, before, es) && Outcome(h.hasMove, w, h.world, es, moves, chosen, dst, true)
    ensures Back(chosen, found.Keys) == chosen.Keys && (!au.failed ==> AllTell(es, chosen, chosen.Keys))
  {
    assert Back(chosen, found.Keys) == chosen.Keys;
  }

  lemma ListedSource(found: map<Folder, seq<nat>>, chosen: map<Loc, Folder>, dst: Folder, src: Folder)
    requires Listed(found, chosen, dst) && src in found
    ensures src in chosen.Values
  {
    assert found[src][0] in found[src];
    assert chosen[Loc(dst, found[src][0])] == src;
  }

  /** Moves every chosen message back, one source folder after another. */
  method MoveAllBack(h: Host, au: A.Auditor, found: map<Folder, seq<nat>>, dst: Folder, ghost chosen: map<Loc, Folder>)
    returns (ok: bool, moved: nat, ghost es: History, ghost moves: History)
    requires h.Valid() && au.host == h && h.selected == dst
    requires Listed(found, chosen, dst) && chosen.Keys <= h.world.server.mail.Keys
    modifies h, au
    ensures h.Did(es) && Outcome(h.hasMove, old(h.world), h.world, es, moves, chosen, dst, ok)
    ensures ok && dst !in chosen.Values ==> moved == |chosen|
    // and the log says so of each, unless writing it has failed
    ensures (old(au.failed) ==> au.failed) && (ok && !au.failed ==> AllTell(es, chosen, chosen.Keys))
    ensures !ok ==> CannotMove(h, chosen.Values)
  {
    hide Step, Replay, LegalRun, ServerOk, Midway, Outcome, Listed, Back, AllTell;
    ghost var w, before := h.world, h.events;
    ok, moved, es, moves := true, 0, Start, Start;
    MidwayStart(h, au, chosen, dst);
    var todo := found.Keys;
    assert found.Keys - todo == {};
    while todo != {}
      invariant todo <= found.Keys && Midway(h, au, w, before, es, moves, chosen, dst, found.Keys - todo)
      invariant old(au.failed) ==> au.failed
      invariant dst !in chosen.Values ==> moved == |Back(chosen, found.Keys - todo)|
    {
      var src :| src in todo;
      ghost var done := found.Keys - todo;
      var uids := SortDedupe(found[src]);
      BackMore(found, chosen, dst, done, src, uids);
      ok, es, moves := NextSource(h, au, uids, dst, src, found, chosen, w, before, es, moves, done);
      if !ok {
        ListedSource(found, chosen, dst, src);
        return;
      }
      moved := moved + |uids|;
      todo := todo - {src};
      assert found.Keys - todo == done + {src};
    }
    assert found.Keys - todo == found.Keys;
    MidwayEnd(h, au, w, before, es, moves, found, chosen, dst);
  }

  function KeyAt(s: Server, l: Loc): Key
    requires l in s.mail
  {
    Key(l.folder, s.mail[l].id)
  }

  /** What undo may bring back of each message it wants. */
  ghost function Quotas(wants: map<Key, Want>, s: Server, lower: Folder -> string, blocked: set<string>,
                        unchecked: set<Folder>): map<Key, nat> {
    map k | k in wants :: Allowance(wants[k], k.id, s, lower, blocked, unchecked)
  }

  /** Every chosen message is a copy in dst of a message in done, and goes to
      the folder that message came from. */
  ghost predicate SentHome(wants: map<Key, Want>, s: Server, dst: Folder, chosen: map<Loc, Folder>, done: set<Key>)
    requires done <= wants.Keys
  {
    forall l <- chosen :: l in s.mail && l.folder == dst && KeyAt(s, l) in done && chosen[l] == wants[KeyAt(s, l)].source
  }

  /** chosen is, of each message in done, the newest copies in dst up to its
      quota, each to go to the folder the message came from. */
  ghost predicate Picked(wants: map<Key, Want>, quota: map<Key, nat>, s: Server, dst: Folder,
                         chosen: map<Loc, Folder>, done: set<Key>)
    requires done <= wants.Keys && quota.Keys == wants.Keys
  {
    && SentHome(wants, s, dst, chosen, done)
    && forall k <- done :: Newest(Copies(s, dst, k.id), quota[k], chosen.Keys * Copies(s, dst, k.id))
  }

  ghost function OfFolder(wants: map<Key, Want>, dst: Folder): set<Key> {
    set k | k in wants && k.dst == dst
  }

  /** The messages undo reports as missing: refused, or due and not there. */
  ghost function Missing(wants: map<Key, Want>, quota: map<Key, nat>, lower: Folder -> string, blocked: set<string>,
                         s: Server, dst: Folder, done: set<Key>): set<Key>
    requires done <= wants.Keys && quota.Keys == wants.Keys
  {
    set k | k in done && (Refuses(lower, blocked, wants[k].source) || (0 < quota[k] && Copies(s, dst, k.id) == {}))
  }

  lemma TailAbove(uids: seq<nat>, cut: nat, x: nat, y: nat)
    requires Ascending(uids) && cut <= |uids| && x in uids[cut..] && y in uids && y !in uids[cut..]
    ensures y < x
  {
    assert uids == uids[..cut] + uids[cut..];
    var i :| 0 <= i < |uids| - cut && uids[cut..][i] == x;
    var j :| 0 <= j < cut && uids[..cut][j] == y;
    assert uids[j] < uids[cut + i];
  }

  /** The last k of an ascending list are the newest k. */
  lemma LastAreNewest(f: Folder, uids: seq<nat>, k: nat, top: seq<nat>)
    requires Ascending(uids) && top == if k < |uids| then uids[|uids| - k..] else uids
    ensures Newest(LocsOf(f, uids), k, LocsOf(f, top))
  {
    LocsCountIs(f, uids);
    LocsCountIs(f, top);
    var cut := |uids| - |top|;
    assert top == uids[cut..];
    forall x, y | x in LocsOf(f, top) && y in LocsOf(f, uids) && y !in LocsOf(f, top) ensures y.uid < x.uid {
      TailAbove(uids, cut, x.uid, y.uid);
    }
  }

  /** Adds the copies of one more message. */
  function AddFound(found: map<Folder, seq<nat>>, src: Folder, top: seq<nat>): map<Folder, seq<nat>> {
    if top == [] then found else found[src := (if src in found then found[src] else []) + top]
  }

  ghost function AddChosen(chosen: map<Loc, Folder>, dst: Folder, src: Folder, top: seq<nat>): map<Loc, Folder> {
    chosen + map l | l in LocsOf(dst, top) :: src
  }

  lemma ListedMore(found: map<Folder, seq<nat>>, chosen: map<Loc, Folder>, dst: Folder, src: Folder, top: seq<nat>)
    requires Listed(found, chosen, dst) && LocsOf(dst, top) !! chosen.Keys
    ensures Listed(AddFound(found, src, top), AddChosen(chosen, dst, src, top), dst)
  {
    var f, c := AddFound(found, src, top), AddChosen(chosen, dst, src, top);
    forall l | l in c ensures l.folder == dst && c[l] in f && l.uid in f[c[l]] {
      if l in LocsOf(dst, top) { assert l.uid in top; }
    }
    forall s, u | s in f && u in f[s] ensures Loc(dst, u) in c && c[Loc(dst, u)] == s {
      if s in found && u in found[s] {
      } else {
        assert u in top;
        assert Loc(dst, u) in LocsOf(dst, top);
      }
    }
  }

  lemma PickedMore(wants: map<Key, Want>, quota: map<Key, nat>, s: Server, dst: Folder, chosen: map<Loc, Folder>,
                   done: set<Key>, k: Key, top: seq<nat>)
    requires done <= wants.Keys && quota.Keys == wants.Keys && k in wants && k !in done && k.dst == dst
    requires forall j <- done :: j.dst == dst
    requires Picked(wants, quota, s, dst, chosen, done)
    requires Newest(Copies(s, dst, k.id), quota[k], LocsOf(dst, top))
    ensures LocsOf(dst, top) !! chosen.Keys
    ensures Picked(wants, quota, s, dst, AddChosen(chosen, dst, wants[k].source, top), done + {k})
  {
    assert LocsOf(dst, top) <= Copies(s, dst, k.id);
    hide Newest;
    HomeMore(wants, s, dst, chosen, done, k, top);
    hide SentHome, AddChosen, Copies, LocsOf;
    var c := AddChosen(chosen, dst, wants[k].source, top);
    forall j | j in done + {k} ensures Newest(Copies(s, dst, j.id), quota[j], c.Keys * Copies(s, dst, j.id)) {
      ChosenAmong(wants, s, dst, chosen, done, k, j, LocsOf(dst, top));
    }
  }

  lemma HomeMore(wants: map<Key, Want>, s: Server, dst: Folder, chosen: map<Loc, Folder>, done: set<Key>, k: Key, top: seq<nat>)
    requires done <= wants.Keys && k in wants && k !in done && k.dst == dst
    requires SentHome(wants, s, dst, chosen, done) && LocsOf(dst, top) <= Copies(s, dst, k.id)
    ensures LocsOf(dst, top) !! chosen.Keys
    ensures SentHome(wants, s, dst, AddChosen(chosen, dst, wants[k].source, top), done + {k})
    ensures AddChosen(chosen, dst, wants[k].source, top).Keys == chosen.Keys + LocsOf(dst, top)
  {
  }

  lemma ChosenAmong(wants: map<Key, Want>, s: Server, dst: Folder, chosen: map<Loc, Folder>, done: set<Key>,
                    k: Key, j: Key, locs: set<Loc>)
    requires done <= wants.Keys && SentHome(wants, s, dst, chosen, done)
    requires locs <= Copies(s, dst, k.id) && k !in done && k.dst == j.dst == dst
    ensures (chosen.Keys + locs) * Copies(s, dst, j.id) == if j == k then locs else chosen.Keys * Copies(s, dst, j.id)
  {
    if j != k { assert Copies(s, dst, j.id) !! Copies(s, dst, k.id); }
  }

  /** The counts undo works with: its quotas, but for folders it refuses. */
  ghost predicate CountsAre(wants: map<Key, Want>, counts: map<Key, nat>, quota: map<Key, nat>, lower: Folder -> string,
                            blocked: set<string>) {
    && counts.Keys == wants.Keys && quota.Keys == wants.Keys
    && forall k <- wants :: quota[k] == if Refuses(lower, blocked, wants[k].source) then 0 else counts[k]
  }

  /** The copies of one message to bring back, and whether to report it missing. */
  method LocateOne(h: Host, au: A.Auditor, wants: map<Key, Want>, counts: map<Key, nat>, k: Key, lower: Folder -> string,
                   blocked: set<string>, ghost quota: map<Key, nat>)
    returns (ok: bool, top: seq<nat>, lost: bool, ghost es: History)
    requires h.Valid() && au.host == h && h.selected == k.dst && k in wants && k.id != ""
    requires CountsAre(wants, counts, quota, lower, blocked)
    modifies h, au
    ensures h.Did(es) && h.selected == k.dst && LogsOnly(es) && h.world.server == old(h.world.server)
    ensures (old(au.failed) ==> au.failed) && (!ok ==> h.faults.breaks)
    ensures ok ==> Newest(Copies(h.world.server, k.dst, k.id), quota[k], LocsOf(k.dst, top))
    ensures ok ==> lost == (Refuses(lower, blocked, wants[k].source) || (0 < quota[k] && Copies(h.world.server, k.dst, k.id) == {}))
  {
    ok, top, lost, es := true, [], false, Start;
    var w := wants[k];
    var line := BLANK.(action := Action.Undo, folder := k.dst, id := k.id, src := k.dst, dst := w.source);
    if Refuses(lower, blocked, w.source) {
      lost := true;
      es := au.Write(line.(error := "refusing to restore"));
      return;
    }
    if counts[k] == 0 { return; }
    var uids;
    ok, uids := I.SearchMessageId(h, k.id);
    if !ok { return; }
    if uids == [] {
      lost := true;
      es := au.Write(line.(error := "not found"));
      return;
    }
    assert Loc(k.dst, uids[0]) in Copies(h.world.server, k.dst, k.id);
    var sorted := SortDedupe(uids);
    ListIsCopies(h.world.server, k.dst, k.id, uids, sorted);
    top := sorted;
    if |sorted| > counts[k] {
      top := sorted[|sorted| - counts[k]..];
      es := au.Write(line.(error := "ambiguous, left in Trash"));
    }
    LastAreNewest(k.dst, sorted, counts[k], top);
  }

  lemma ListIsCopies(s: Server, f: Folder, id: string, uids: seq<nat>, sorted: seq<nat>)
    requires forall u :: u in uids <==> Loc(f, u) in Copies(s, f, id)
    requires forall u :: u in sorted <==> u in uids
    ensures LocsOf(f, sorted) == Copies(s, f, id)
  {
    forall l | l in Copies(s, f, id) ensures l in LocsOf(f, sorted) {
      assert l == Loc(f, l.uid) && l.uid in sorted;
    }
  }

  /** Locates the copies of every wanted message of dst before any is moved. */
  method Locate(h: Host, au: A.Auditor, wants: map<Key, Want>, counts: map<Key, nat>, dst: Folder, lower: Folder -> string,
                blocked: set<string>, ghost quota: map<Key, nat>)
    returns (ok: bool, found: map<Folder, seq<nat>>, missing: nat, ghost chosen: map<Loc, Folder>, ghost es: History)
    requires h.Valid() && au.host == h && h.selected == dst && AllNamed(wants)
    requires CountsAre(wants, counts, quota, lower, blocked)
    modifies h, au
    ensures h.Did(es) && h.selected == dst && LogsOnly(es) && h.world.server == old(h.world.server)
    ensures ok ==> Listed(found, chosen, dst) && Picked(wants, quota, h.world.server, dst, chosen, OfFolder(wants, dst))
    ensures ok ==> missing == |Missing(wants, quota, lower, blocked, h.world.server, dst, OfFolder(wants, dst))|
    ensures (old(au.failed) ==> au.failed) && (!ok ==> h.faults.breaks)
  {
    hide Step, ServerOk, Picked, Listed, CountsAre, Newest, Missing;
    ghost var w, before := h.world, h.events;
    ghost var s := w.server;
    ok, found, missing, chosen, es := true, map[], 0, map[], Start;
    LocateStart(wants, counts, quota, lower, blocked, s, dst);
    var todo := set k | k in wants && k.dst == dst;
    ghost var done: set<Key> := {};
    while todo != {}
      invariant done == OfFolder(wants, dst) - todo && todo <= OfFolder(wants, dst)
      invariant h.Since(w, before, es) && h.selected == dst && LogsOnly(es) && h.world.server == s
      invariant quota.Keys == wants.Keys && CountsAre(wants, counts, quota, lower, blocked)
      invariant Listed(found, chosen, dst) && Picked(wants, quota, s, dst, chosen, done)
      invariant missing == |Missing(wants, quota, lower, blocked, s, dst, done)|
      invariant old(au.failed) ==> au.failed
    {
      var k :| k in todo;
      var top, lost;
      ghost var b;
      ok, top, lost, b := LocateOne(h, au, wants, counts, k, lower, blocked, quota);
      SinceAppend(h, w, before, es, b);
      AppendLogsOnly(es, b);
      es := Append(es, b);
      if !ok { return; }
      PickedMore(wants, quota, s, dst, chosen, done, k, top);
      ListedMore(found, chosen, dst, wants[k].source, top);
      MissingMore(wants, quota, lower, blocked, s, dst, done, k);
      found, chosen := AddFound(found, wants[k].source, top), AddChosen(chosen, dst, wants[k].source, top);
      missing := missing + if lost then 1 else 0;
      todo, done := todo - {k}, done + {k};
    }
    assert done == OfFolder(wants, dst);
  }

  lemma LocateStart(wants: map<Key, Want>, counts: map<Key, nat>, quota: map<Key, nat>, lower: Folder -> string,
                    blocked: set<string>, s: Server, dst: Folder)
    requires CountsAre(wants, counts, quota, lower, blocked)
    ensures quota.Keys == wants.Keys
    ensures Picked(wants, quota, s, dst, map[], {}) && Listed(map[], map[], dst)
    ensures Missing(wants, quota, lower, blocked, s, dst, {}) == {}
  {
  }

  lemma MissingMore(wants: map<Key, Want>, quota: map<Key, nat>, lower: Folder -> string, blocked: set<string>,
                    s: Server, dst: Folder, done: set<Key>, k: Key)
    requires done <= wants.Keys && quota.Keys == wants.Keys && k in wants && k !in done
    ensures var lost := Refuses(lower, blocked, wants[k].source) || (0 < quota[k] && Copies(s, dst, k.id) == {});
      |Missing(wants, quota, lower, blocked, s, dst, done + {k})| ==
      |Missing(wants, quota, lower, blocked, s, dst, done)| + if lost then 1 else 0
  {
    var lost := Refuses(lower, blocked, wants[k].source) || (0 < quota[k] && Copies(s, dst, k.id) == {});
    var m := Missing(wants, quota, lower, blocked, s, dst, done);
    assert Missing(wants, quota, lower, blocked, s, dst, done + {k}) == m + if lost then {k} else {};
  }

  /** What is left of a count when the copies that never moved are taken off. */
  ghost function Left(w: Want, id: string, s: Server): nat {
    var never := Never(w.unconfirmed, Holding(s, w.source, id));
    if never <= w.count then w.count - never else 0
  }

  /** The messages with something to check: recorded and not confirmed. */
  function Unsure(wants: map<Key, Want>, lower: Folder -> string, blocked: set<string>): set<Key> {
    set k | k in wants && wants[k].unconfirmed != [] && !Refuses(lower, blocked, wants[k].source)
  }

  /** Some message from f was recorded and not confirmed. */
  ghost predicate ToCheck(wants: map<Key, Want>, f: Folder) {
    exists k <- wants :: wants[k].source == f && wants[k].unconfirmed != []
  }

  /** The counts once the messages in judged have been checked. */
  ghost predicate Judged(wants: map<Key, Want>, counts: map<Key, nat>, s: Server, judged: set<Key>) {
    && counts.Keys == wants.Keys
    && forall k <- wants :: counts[k] == if k in judged then Left(wants[k], k.id, s) else wants[k].count
  }

  method CountNever(unconfirmed: seq<nat>, present: set<nat>) returns (never: nat)
    ensures never == Never(unconfirmed, present)
  {
    never := 0;
    for i := 0 to |unconfirmed|
      invariant never == Never(unconfirmed[..i], present)
    {
      assert unconfirmed[..i + 1][..i] == unconfirmed[..i];
      if unconfirmed[i] in present { never := never + 1; }
    }
    assert unconfirmed[..|unconfirmed|] == unconfirmed;
  }

  /** Takes off one message's count the copies still in the selected source. */
  method CheckOne(h: Host, au: A.Auditor, w: Want, id: string) returns (ok: bool, left: nat, ghost es: History)
    requires h.Valid() && au.host == h && h.selected == w.source && id != ""
    modifies h, au
    ensures h.Did(es) && h.selected == w.source && LogsOnly(es) && h.world.server == old(h.world.server)
    ensures if ok then left == Left(w, id, h.world.server) else h.faults.breaks
  {
    es, left := Start, w.count;
    var uids;
    ok, uids := I.SearchMessageId(h, id);
    if !ok { return; }
    var present := set u | u in uids;
    assert present == Holding(h.world.server, w.source, id);
    var never := CountNever(w.unconfirmed, present);
    if never == 0 { return; }
    left := if never <= w.count then w.count - never else 0;
    es := au.Write(BLANK.(action := Action.Undo, id := id, src := w.source, dst := w.source,
                          error := "never moved, left in place"));
  }

  /** Checks the messages keys, all of one source folder, which is selected. */
  method CheckSource(h: Host, au: A.Auditor, wants: map<Key, Want>, counts0: map<Key, nat>, keys: set<Key>, src: Folder,
                     ghost judged: set<Key>)
    returns (ok: bool, counts: map<Key, nat>, ghost es: History)
    requires h.Valid() && au.host == h && h.selected == src && AllNamed(wants)
    requires keys <= wants.Keys && keys !! judged && forall k <- keys :: wants[k].source == src
    requires Judged(wants, counts0, h.world.server, judged)
    modifies h, au
    ensures h.Did(es) && LogsOnly(es) && h.world.server == old(h.world.server)
    ensures if ok then Judged(wants, counts, h.world.server, judged + keys) else h.faults.breaks
  {
    ok, counts, es := true, counts0, Start;
    ghost var w, before := h.world, h.events;
    var todo := keys;
    assert judged + (keys - todo) == judged;
    while todo != {}
      invariant todo <= keys
      invariant h.Since(w, before, es) && h.selected == src && LogsOnly(es) && h.world.server == w.server
      invariant Judged(wants, counts, w.server, judged + (keys - todo))
    {
      var k :| k in todo;
      var left;
      ghost var b;
      ok, left, b := CheckOne(h, au, wants[k], k.id);
      SinceAppend(h, w, before, es, b);
      AppendLogsOnly(es, b);
      es := Append(es, b);
      if !ok { return; }
      counts, todo := counts[k := left], todo - {k};
    }
    assert judged + (keys - todo) == judged + keys;
  }

  ghost function InSources(wants: map<Key, Want>, keys: set<Key>, sources: set<Folder>): set<Key>
    requires keys <= wants.Keys
  {
    set k | k in keys && wants[k].source in sources
  }

  /** Looks in the source folders for messages that were recorded but never
      moved. A folder that cannot be opened leaves its counts as they are. */
  method CheckNever(h: Host, au: A.Auditor, wants: map<Key, Want>, lower: Folder -> string, blocked: set<string>)
    returns (ok: bool, counts: map<Key, nat>, ghost unchecked: set<Folder>, ghost es: History)
    requires h.Valid() && au.host == h && AllNamed(wants)
    modifies h, au
    ensures h.Did(es) && LogsOnly(es) && h.world.server == old(h.world.server)
    ensures if ok then CountsAre(wants, counts, Quotas(wants, h.world.server, lower, blocked, unchecked), lower, blocked)
            else h.faults.breaks && exists f :: ToCheck(wants, f)
    // only a folder that would not open goes unchecked, and only one with something to check
    ensures forall f <- unchecked :: (f !in h.world.server.next || f in h.faults.closed) && ToCheck(wants, f)
  {
    hide Judged, Refuses, Left, Quotas;
    ghost var w, before := h.world, h.events;
    ok, counts, unchecked, es := true, map k | k in wants :: wants[k].count, {}, Start;
    var unsure := Unsure(wants, lower, blocked);
    var todo := set k | k in unsure :: wants[k].source;
    ghost var sources := todo;
    assert forall f <- sources :: ToCheck(wants, f);
    hide ToCheck;
    assert InSources(wants, unsure, sources - todo - unchecked) == {};
    JudgedStart(wants, counts, w.server);
    while todo != {}
      invariant todo <= sources && unchecked <= sources - todo
      invariant forall f <- unchecked :: f !in h.world.server.next || f in h.faults.closed
      invariant h.Since(w, before, es) && LogsOnly(es) && h.world.server == w.server
      invariant Judged(wants, counts, w.server, InSources(wants, unsure, sources - todo - unchecked))
    {
      var src :| src in todo;
      ghost var judged := InSources(wants, unsure, sources - todo - unchecked);
      var open, _ := h.Select(src);
      todo := todo - {src};
      if open {
        var keys := set k | k in unsure && wants[k].source == src;
        ghost var b;
        ok, counts, b := CheckSource(h, au, wants, counts, keys, src, judged);
        SinceAppend(h, w, before, es, b);
        AppendLogsOnly(es, b);
        es := Append(es, b);
        if !ok { return; }
        assert judged + keys == InSources(wants, unsure, sources - todo - unchecked);
      } else {
        unchecked := unchecked + {src};
        assert judged == InSources(wants, unsure, sources - todo - unchecked);
      }
    }
    assert sources - todo - unchecked == sources - unchecked;
    JudgedAll(wants, counts, w.server, lower, blocked, unchecked, sources);
  }

  lemma JudgedStart(wants: map<Key, Want>, counts: map<Key, nat>, s: Server)
    requires counts == map k | k in wants :: wants[k].count
    ensures Judged(wants, counts, s, {})
  {
  }

  lemma JudgedAll(wants: map<Key, Want>, counts: map<Key, nat>, s: Server, lower: Folder -> string, blocked: set<string>,
                  unchecked: set<Folder>, sources: set<Folder>)
    requires sources == set k | k in Unsure(wants, lower, blocked) :: wants[k].source
    requires Judged(wants, counts, s, InSources(wants, Unsure(wants, lower, blocked), sources - unchecked))
    ensures CountsAre(wants, counts, Quotas(wants, s, lower, blocked, unchecked), lower, blocked)
  {
    forall k | k in wants && !Refuses(lower, blocked, wants[k].source)
      ensures counts[k] == Allowance(wants[k], k.id, s, lower, blocked, unchecked)
    {
      if wants[k].unconfirmed != [] {
        assert k in Unsure(wants, lower, blocked);
        assert wants[k].source in sources;
      }
    }
  }

  /** One Trash folder's part of an undo: what it chose, what happened, and
      what that amounts to. */
  datatype Pick = Pick(
    dst: Folder, chosen: map<Loc, Folder>, es: History, moves: History, moved: nat, missing: nat)

  /** What an undo works to: the messages it wants, its quota of each, and the
      folders it refuses. */
  datatype Terms = Terms(wants: map<Key, Want>, quota: map<Key, nat>, lower: Folder -> string, blocked: set<string>)

  ghost predicate TermsOk(d: Terms) {
    && d.quota.Keys == d.wants.Keys
    && forall k <- d.wants :: Refuses(d.lower, d.blocked, d.wants[k].source) ==> d.quota[k] == 0
  }

  /** The part starts from w: it chooses the newest copies up to the quota of
      every message wanted from its folder, and moves those back. */
  ghost predicate PickOk(hasMove: bool, w: World, d: Terms, p: Pick, ok: bool)
    requires TermsOk(d)
  {
    && LegalRun(w, p.es) && Outcome(hasMove, w, Replay(w, p.es), p.es, p.moves, p.chosen, p.dst, ok)
    && (ok || p.chosen != map[] ==> Picked(d.wants, d.quota, w.server, p.dst, p.chosen, OfFolder(d.wants, p.dst)))
    && (ok ==> p.missing == |Missing(d.wants, d.quota, d.lower, d.blocked, w.server, p.dst, OfFolder(d.wants, p.dst))|)
    && (ok && p.dst !in p.chosen.Values ==> p.moved == |p.chosen|)
  }

  lemma LogsThenMoves(hasMove: bool, w: World, w1: World, w2: World, a: History, b: History, moves: History,
                      chosen: map<Loc, Folder>, dst: Folder, ok: bool)
    requires LogsOnly(a) && w1 == Replay(w, a) && w2 == Replay(w1, b)
    requires Outcome(hasMove, w1, w2, b, moves, chosen, dst, ok)
    ensures Outcome(hasMove, w, w2, Append(a, b), Append(a, moves), chosen, dst, ok)
  {
    hide Step;
    LogsWithin(a, chosen);
    WithinAppend(a, b, chosen);
    if (ok || hasMove) && dst !in chosen.Values {
      RestoringAppend(a, moves, chosen);
      AppendActed(a, moves);
      AppendReplay(w, a, moves);
      LogsOnlyKeeps(w, a);
    }
  }

  /** Something may go wrong with restoring what was moved to dst. */
  ghost predicate Hindered(h: Host, wants: map<Key, Want>, dst: Folder)
    reads h
  {
    || h.faults.breaks || (!h.hasMove && !h.hasUidPlus)
    || dst !in h.world.server.next || dst in h.faults.closed
    || exists k <- wants :: wants[k].source !in h.world.server.next
  }

  lemma HinderedBy(h: Host, wants: map<Key, Want>, s: Server, dst: Folder, chosen: map<Loc, Folder>)
    requires CannotMove(h, chosen.Values) && SentHome(wants, s, dst, chosen, OfFolder(wants, dst))
    ensures Hindered(h, wants, dst)
  {
    if f :| f in chosen.Values && f !in h.world.server.next {
      var l :| l in chosen && chosen[l] == f;
      assert KeyAt(s, l) in wants;
    }
  }

  /** Restores what was moved to dst. */
  method RestoreFrom(h: Host, au: A.Auditor, wants: map<Key, Want>, counts: map<Key, nat>, dst: Folder,
                     lower: Folder -> string, blocked: set<string>, ghost quota: map<Key, nat>)
    returns (ok: bool, moved: nat, missing: nat, ghost p: Pick)
    requires h.Valid() && au.host == h && CountsAre(wants, counts, quota, lower, blocked) && AllNamed(wants)
    modifies h, au
    ensures TermsOk(Terms(wants, quota, lower, blocked))
    ensures h.Did(p.es) && PickOk(h.hasMove, old(h.world), Terms(wants, quota, lower, blocked), p, ok)
    ensures p.dst == dst && p.moved == moved && p.missing == missing
    ensures (old(au.failed) ==> au.failed) && (ok && !au.failed ==> AllTell(p.es, p.chosen, p.chosen.Keys))
    ensures !ok ==> Hindered(h, wants, dst)
  {
    hide Step, ServerOk, Listed, Missing, CountsAre, Within, Restoring, Outcome, OfFolder, CannotMove, SentHome, Newest;
    ghost var w := h.world;
    CountsTerms(wants, counts, quota, lower, blocked);
    moved, missing, p := 0, 0, Pick(dst, map[], Start, Start, 0, 0);
    NothingChosen(h.hasMove, w, w, Start, dst);
    var validity;
    ok, validity := h.Select(dst);
    if !ok { return; }
    var found;
    ghost var a, b, m, chosen;
    ok, found, missing, chosen, a := Locate(h, au, wants, counts, dst, lower, blocked, quota);
    ghost var w1 := h.world;
    if !ok {
      NothingChosen(h.hasMove, w, w1, a, dst);
      p := Pick(dst, map[], a, a, 0, missing);
      return;
    }
    PickedThere(wants, quota, w1.server, dst, chosen);
    ok, moved, b, m := MoveAllBack(h, au, found, dst, chosen);
    if !ok { HinderedBy(h, wants, w1.server, dst, chosen); }
    SinceAppend(h, w, old(h.events), a, b);
    LogsThenMoves(h.hasMove, w, w1, h.world, a, b, m, chosen, dst, ok);
    if ok && !au.failed {
      AllTellAppend(a, b, chosen, {}, chosen.Keys);
      assert {} + chosen.Keys == chosen.Keys;
    }
    p := Pick(dst, chosen, Append(a, b), Append(a, m), moved, missing);
  }

  lemma CountsTerms(wants: map<Key, Want>, counts: map<Key, nat>, quota: map<Key, nat>, lower: Folder -> string,
      blocked: set<string>)
    requires CountsAre(wants, counts, quota, lower, blocked)
    ensures TermsOk(Terms(wants, quota, lower, blocked))
  {
  }

  lemma PickedThere(wants: map<Key, Want>, quota: map<Key, nat>, s: Server, dst: Folder, chosen: map<Loc, Folder>)
    requires quota.Keys == wants.Keys && Picked(wants, quota, s, dst, chosen, OfFolder(wants, dst))
    ensures chosen.Keys <= s.mail.Keys
  {
  }

  lemma NothingChosen(hasMove: bool, w: World, w': World, es: History, dst: Folder)
    requires LogsOnly(es) && w' == Replay(w, es)
    ensures Outcome(hasMove, w, w', es, es, map[], dst, false) && LegalRun(w, es)
  {
    LogsWithin(es, map[]);
  }

  /** The whole of what an undo did: its checks, then one part after another. */
  ghost function Told(logs: History, picks: seq<Pick>): History {
    if picks == [] then logs else Append(Told(logs, picks[..|picks| - 1]), picks[|picks| - 1].es)
  }

  /** Every part is in order, only the last may be incomplete, and no folder
      has two parts. */
  ghost predicate Episodes(hasMove: bool, w: World, d: Terms, logs: History, picks: seq<Pick>, complete: bool)
    requires TermsOk(d)
  {
    && (forall i :: 0 <= i < |picks| ==>
          PickOk(hasMove, Replay(w, Told(logs, picks[..i])), d, picks[i], complete || i < |picks| - 1))
    && forall i, j :: 0 <= i < j < |picks| ==> picks[i].dst != picks[j].dst
  }

  lemma EpisodesMore(hasMove: bool, w: World, d: Terms, logs: History, picks: seq<Pick>, p: Pick, ok: bool)
    requires TermsOk(d) && Episodes(hasMove, w, d, logs, picks, true) && p.dst !in Dsts(picks)
    requires PickOk(hasMove, Replay(w, Told(logs, picks)), d, p, ok)
    ensures Episodes(hasMove, w, d, logs, picks + [p], ok)
  {
    hide PickOk, Replay, TermsOk, Told;
    var q := picks + [p];
    assert picks[..|picks|] == picks;
    forall i | 0 <= i < |q| ensures PickOk(hasMove, Replay(w, Told(logs, q[..i])), d, q[i], ok || i < |picks|) {
      assert q[..i] == picks[..i];
    }
    forall i, j | 0 <= i < j < |q| ensures q[i].dst != q[j].dst {
      assert picks[i].dst in Dsts(picks);
    }
  }

  lemma PicksMore(logs: History, picks: seq<Pick>, p: Pick)
    ensures Told(logs, picks + [p]) == Append(Told(logs, picks), p.es)
    ensures Dsts(picks + [p]) == Dsts(picks) + {p.dst}
    ensures SumMoved(picks + [p]) == SumMoved(picks) + p.moved && SumMissing(picks + [p]) == SumMissing(picks) + p.missing
  {
    Snoc(picks, p);
    var q := picks + [p];
    forall f | f in Dsts(picks) ensures f in Dsts(q) {
      var i :| 0 <= i < |picks| && picks[i].dst == f;
      assert q[i].dst == f;
    }
    assert q[|picks|].dst == p.dst;
  }

  ghost function Dsts(picks: seq<Pick>): set<Folder> {
    set i | 0 <= i < |picks| :: picks[i].dst
  }

  ghost function SumMoved(picks: seq<Pick>): nat {
    if picks == [] then 0 else SumMoved(picks[..|picks| - 1]) + picks[|picks| - 1].moved
  }

  ghost function SumMissing(picks: seq<Pick>): nat {
    if picks == [] then 0 else SumMissing(picks[..|picks| - 1]) + picks[|picks| - 1].missing
  }

  /** What undo may not restore into besides the well-known names: what the
      server marks Trash, Junk, Drafts or Sent, as far as the lookups found. */
  function BlockedDestinations(lower: Folder -> string, special: seq<Folder>): set<string> {
    set f | f in special && f != NOWHERE :: lower(f)
  }

  lemma RefusesMeaning(lower: Folder -> string, special: seq<Folder>, f: Folder)
    ensures Refuses(lower, BlockedDestinations(lower, special), f) <==> Forbidden(lower, special, f)
  {
    NeverSourceMeaning(lower(f));
  }

  /** No message arrives in a folder undo must not restore into. */
  ghost predicate NeverInto(es: History, lower: Folder -> string, special: seq<Folder>) {
    es.Then? ==> NeverInto(es.past, lower, special) && (Arrives(es.e) ==> !Forbidden(lower, special, es.e.to.folder))
  }

  lemma NeverIntoAppend(a: History, b: History, lower: Folder -> string, special: seq<Folder>)
    requires NeverInto(a, lower, special) && NeverInto(b, lower, special)
    ensures NeverInto(Append(a, b), lower, special)
  {
  }

  lemma {:induction false} WithinMeans(es: History, chosen: map<Loc, Folder>, lower: Folder -> string, special: seq<Folder>)
    requires Within(es, chosen) && forall l <- chosen :: !Forbidden(lower, special, chosen[l])
    ensures NeverInto(es, lower, special)
  {
    if es.Then? { WithinMeans(es.past, chosen, lower, special); }
  }

  lemma WithinActs(es: History, chosen: map<Loc, Folder>)
    requires Within(es, chosen)
    ensures Acted(es) <= chosen.Keys
  {
  }

  /** Nothing is chosen for a folder that must not be restored into. */
  lemma ChosenAllowed(d: Terms, special: seq<Folder>, s: Server, dst: Folder, chosen: map<Loc, Folder>)
    requires TermsOk(d) && Picked(d.wants, d.quota, s, dst, chosen, OfFolder(d.wants, dst))
    requires d.blocked == BlockedDestinations(d.lower, special)
    ensures forall l <- chosen :: !Forbidden(d.lower, special, chosen[l])
  {
    forall l | l in chosen ensures !Forbidden(d.lower, special, chosen[l]) {
      var k := KeyAt(s, l);
      RefusesMeaning(d.lower, special, chosen[l]);
      assert l in chosen.Keys * Copies(s, dst, k.id);
      assert Newest(Copies(s, dst, k.id), d.quota[k], chosen.Keys * Copies(s, dst, k.id));
    }
  }

  lemma PickNeverInto(hasMove: bool, w: World, d: Terms, special: seq<Folder>, p: Pick, ok: bool)
    requires TermsOk(d) && PickOk(hasMove, w, d, p, ok) && d.blocked == BlockedDestinations(d.lower, special)
    ensures NeverInto(p.es, d.lower, special)
  {
    hide TermsOk, Picked, Forbidden;
    if p.chosen != map[] { ChosenAllowed(d, special, w.server, p.dst, p.chosen); }
    WithinMeans(p.es, p.chosen, d.lower, special);
  }

  lemma LogsNeverInto(es: History, lower: Folder -> string, special: seq<Folder>)
    requires LogsOnly(es)
    ensures NeverInto(es, lower, special)
  {
  }

  /** The terms on which undo works, given the log and the server it starts from. */
  ghost function TermsOf(w: World, account: string, lower: Folder -> string, special: seq<Folder>,
      unchecked: set<Folder>): Terms {
    var wants := WantsOf(w.log, account, ConfirmedBy(w.log, account));
    var blocked := BlockedDestinations(lower, special);
    Terms(wants, Quotas(wants, w.server, lower, blocked, unchecked), lower, blocked)
  }

  lemma TermsAreOk(w: World, account: string, lower: Folder -> string, special: seq<Folder>, unchecked: set<Folder>)
    ensures TermsOk(TermsOf(w, account, lower, special, unchecked))
  {
  }

  ghost function DstsOf(wants: map<Key, Want>): set<Folder> {
    set k | k in wants :: k.dst
  }

  /** What an undo did is in order: checks, then the parts it got to, each
      Trash folder of the log at most once, and all of them if complete. */
  ghost predicate Undone(hasMove: bool, w: World, d: Terms, logs: History, picks: seq<Pick>, complete: bool) {
    && TermsOk(d) && LogsOnly(logs) && Episodes(hasMove, w, d, logs, picks, complete)
    && Dsts(picks) <= DstsOf(d.wants) && (complete ==> Dsts(picks) == DstsOf(d.wants))
  }

  /** Every part has a line for each message it restored. */
  ghost predicate AllPicksTell(picks: seq<Pick>) {
    forall p <- picks :: AllTell(p.es, p.chosen, p.chosen.Keys)
  }

  lemma PicksTellMore(picks: seq<Pick>, p: Pick)
    requires AllPicksTell(picks) && AllTell(p.es, p.chosen, p.chosen.Keys)
    ensures AllPicksTell(picks + [p])
  {
  }

  /** Undoes the run whose audit log the host's is, as far as that goes. */
  method Run(h: Host, au: A.Auditor, account: string, lower: Folder -> string, special: seq<Folder>, agreed: bool)
    returns (ok: bool, moved: nat, missing: nat, ghost unchecked: set<Folder>,
             ghost logs: History, ghost picks: seq<Pick>, ghost complete: bool)
    requires h.Valid() && au.host == h
    modifies h, au
    ensures h.Did(Told(logs, picks))
    ensures Undone(h.hasMove, old(h.world), TermsOf(old(h.world), account, lower, special, unchecked), logs, picks, complete)
    // nothing arrives in a folder with a well-known name or marked special-use
    ensures NeverInto(Told(logs, picks), lower, special)
    ensures DstsOf(TermsOf(old(h.world), account, lower, special, {}).wants) == {} || !agreed ==> !ok && logs == Start && picks == []
    ensures complete ==> moved == SumMoved(picks) && missing == SumMissing(picks)
    // without an error all of it was done, and the log has a line for each message restored
    ensures ok ==> complete && AllPicksTell(picks)
    // only a folder that would not open goes unchecked
    ensures forall f <- unchecked :: f !in h.world.server.next || f in h.faults.closed
    // it fails only if the log asks for nothing, the user did not agree, or something else may
    ensures !ok ==> !agreed || au.failed || DstsOf(TermsOf(old(h.world), account, lower, special, {}).wants) == {}
                    || exists f <- DstsOf(TermsOf(old(h.world), account, lower, special, {}).wants) ::
                         Hindered(h, TermsOf(old(h.world), account, lower, special, {}).wants, f)
  {
    hide Step, ServerOk, Quotas, CountsAre, PickOk, Episodes, TermsOk, TermsOf, BlockedDestinations, AllTell;
    ghost var w, before := h.world, h.events;
    ok, moved, missing, unchecked, logs, picks, complete := false, 0, 0, {}, Start, [], false;
    var wants := ReadLog(h.world.log, account);
    WantsNamed(h.world.log, account, ConfirmedBy(h.world.log, account));
    NoEpisodes(h.hasMove, w, account, lower, special, unchecked, Start, wants);
    if wants == map[] || !agreed { return; }
    assert AllPicksTell(picks);
    hide AllPicksTell;
    ghost var k0 :| k0 in wants;
    var blocked := BlockedDestinations(lower, special);
    var counts;
    ok, counts, unchecked, logs := CheckNever(h, au, wants, lower, blocked);
    ghost var quota := Quotas(wants, w.server, lower, blocked, unchecked);
    ghost var d := Terms(wants, quota, lower, blocked);
    NoEpisodes(h.hasMove, w, account, lower, special, unchecked, logs, wants);
    if !ok {
      assert Hindered(h, wants, k0.dst);
      return;
    }
    var dsts := set k | k in wants :: k.dst;
    ghost var all := dsts;
    while dsts != {}
      invariant h.Since(w, before, Told(logs, picks)) && LogsOnly(logs)
      invariant TermsOk(d) && CountsAre(wants, counts, quota, lower, blocked)
      invariant Episodes(h.hasMove, w, d, logs, picks, true)
      invariant dsts <= all && Dsts(picks) == all - dsts && NeverInto(Told(logs, picks), lower, special)
      invariant moved == SumMoved(picks) && missing == SumMissing(picks)
      invariant !au.failed ==> AllPicksTell(picks)
    {
      var dst :| dst in dsts;
      var more, lost;
      ghost var p;
      ok, more, lost, p := RestoreFrom(h, au, wants, counts, dst, lower, blocked, quota);
      SinceAppend(h, w, before, Told(logs, picks), p.es);
      EpisodesMore(h.hasMove, w, d, logs, picks, p, ok);
      PicksMore(logs, picks, p);
      PickNeverInto(h.hasMove, Replay(w, Told(logs, picks)), d, special, p, ok);
      NeverIntoAppend(Told(logs, picks), p.es, lower, special);
      if ok && !au.failed { PicksTellMore(picks, p); }
      picks := picks + [p];
      if !ok { return; }
      moved, missing, dsts := moved + more, missing + lost, dsts - {dst};
    }
    ok, complete := !au.failed, true;
  }

  lemma NoEpisodes(hasMove: bool, w: World, account: string, lower: Folder -> string, special: seq<Folder>,
                   unchecked: set<Folder>, logs: History, wants: map<Key, Want>)
    requires wants == WantsOf(w.log, account, ConfirmedBy(w.log, account))
    ensures var d := TermsOf(w, account, lower, special, unchecked);
      && TermsOk(d) && Episodes(hasMove, w, d, logs, [], true) && Episodes(hasMove, w, d, logs, [], false)
      && var blocked := BlockedDestinations(lower, special);
         d == Terms(wants, Quotas(wants, w.server, lower, blocked, unchecked), lower, blocked)
    ensures LogsOnly(logs) ==> NeverInto(Told(logs, []), lower, special)
    ensures DstsOf(wants) == {} <==> wants == map[]
    ensures TermsOf(w, account, lower, special, {}).wants == wants
    ensures Dsts([]) == {}
  {
    TermsAreOk(w, account, lower, special, unchecked);
    if LogsOnly(logs) { LogsNeverInto(logs, lower, special); }
    if wants != map[] {
      var k :| k in wants;
      assert k.dst in DstsOf(wants);
    }
  }
}
