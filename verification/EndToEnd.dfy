/** From the delete phase, through a crash, to undo. */
module EndToEnd {
  import opened Mailbox
  import opened Audit
  import opened Events
  import opened WriteAhead
  import opened Soundness
  import opened Rules
  import opened Apply
  import opened Store
  import opened Execute
  import opened UndoPlan
  import opened Undo
  import opened Entitlement
  import opened Recovery
  import opened Halfway
  import opened Resumption

  lemma {:induction false} LogPrefix(w: World, p: History, es: History)
    requires Begins(p, es)
    ensures Replay(w, p).log <= Replay(w, es).log
  {
    if p != es { LogPrefix(w, p, es.past); }
  }

  /** The log at any moment, or what a crash leaves of it, names no more than
      the whole log. */
  lemma NamesNoMore(w: World, p: History, es: History, k: nat)
    requires Begins(p, es) && k <= |Replay(w, p).log|
    ensures Intents(Replay(w, p).log[..k]) <= Intents(Replay(w, es).log)
  {
    LogPrefix(w, p, es);
    var whole := Replay(w, es).log;
    assert Replay(w, p).log[..k] == whole[..k];
    ReadPrefix(whole, k);
  }

  /** The same names and mailboxes at undo as at delete: undo refuses no more
      than the run protected. */
  ghost predicate SameSite(r: Runner, found: seq<Folder>, x: Site)
    reads r, r.h
  {
    && x.lower == r.c.lower
    && (Intents(r.h.world.log) == {} || r.noSource == ProtectedFolders(r.c, r.trash, found))
    && BlockedDestinations(x.lower, x.special) <= ProtectedFolders(r.c, r.trash, found)
  }

  /** What an undo may not restore into, a delete does not read from: so undo
      refuses none of the folders of such a run's log. */
  lemma DeletesArePermitted(r: Runner, w0: World, before: History, es: History, rows0: Table, waived: set<string>,
                            rows: seq<Row>, found: seq<Folder>, x: Site, p: History, k: nat)
    requires Accountable(r, w0, before, es, rows0, waived, rows) && SameSite(r, found, x) && r.trash != NOWHERE
    requires Begins(p, es) && k <= |Replay(w0, p).log|
    ensures Permitted(r.run, Replay(w0, p).log[..k], x)
  {
    hide SoundThrough, Sound, RowsDropped, Cleared;
    NamesNoMore(w0, p, es, k);
    forall l | l in Intents(Replay(w0, p).log[..k])
      ensures !Refuses(x.lower, BlockedDestinations(x.lower, x.special), l.folder)
    {
      assert Authorised(r.c, w0.server, r.st.cursors, r.noSource, waived, rows, l);
    }
  }

  /** A moment at which no batch of the fallback is under way. */
  ghost predicate AtRest(r: Runner, w: World)
    reads r, r.h
  {
    r.h.hasMove || Open(w.log) == {}
  }

  lemma MomentOfRun(r: Runner, w0: World, before: History, es: History, rows0: Table, waived: set<string>,
      rows: seq<Row>, p: History)
    requires Accountable(r, w0, before, es, rows0, waived, rows) && Begins(p, es)
    ensures var v := Replay(w0, p);
      && Ahead(r.run, v) && Landed(r.run, v) && v.synced <= |v.log| && r.run.trash == r.trash
      && (AtRest(r, v) ==> Inv(r.run, v))
  {
    hide Ahead, Landed, Inv, RowsDropped, Authorised;
    AheadOrdered(r.run, Replay(w0, p));
  }

  /** The delete phase run against a server, a crash or a failure at any moment of
      it, on either path, then an undo that completes on either path: what comes
      back of Trash, of each message and of all mailboxes, each exactly when. At
      rest no message is in its folder and copied. If the log is clear and undo
      can open the sources with something to check, Trash is as it was if and
      only if there is no such message, and all mailboxes are, up to UIDs, if and
      only if, besides, the first pending line for each message that is gone
      gives the folder it was in; and of a message recorded from one folder each
      folder outside Trash holds as many as before in any case. */
  lemma DeleteCrashUndo(r: Runner, w0: World, before: History, es: History, rows0: Table, waived: set<string>,
                        rows: seq<Row>, found: seq<Folder>, x: Site, p: History, k: nat,
                        hasMove: bool, logs: History, picks: seq<Pick>)
    requires Accountable(r, w0, before, es, rows0, waived, rows) && SameSite(r, found, x) && r.trash != NOWHERE
    requires Begins(p, es) && Replay(w0, p).synced <= k <= |Replay(w0, p).log|
    requires var w := Crash(Replay(w0, p), k);
      LegalRun(w, Told(logs, picks)) && Undone(hasMove, w, TermsAt(r.run, w, x), logs, picks, true)
    ensures var w := Crash(Replay(w0, p), k);
      var s := Replay(w, Told(logs, picks)).server;
      && (TrashAsBefore(r.run, s) <==> forall id :: Evens(r.run, w, x, id))
      && (forall id :: KeepsCount(r.run, s, id) <==> Repaid(r.run, w, x, id))
      && (AsBefore(r.run, s) <==>
            && Doubled(r.run, w) == {} && (forall id :: TellsApart(r.run, w, x, id))
            && forall l <- r.run.s0.mail :: l !in w.server.mail ==> Goal(r.run, w.log)(r.run.s0.mail[l].id) == l.folder)
    ensures var w := Crash(Replay(w0, p), k);
      && (AtRest(r, Replay(w0, p)) ==> Doubled(r.run, w) == {})
      && (Doubled(r.run, w) == {} ==> forall id :: Evens(r.run, w, x, id) <==> TellsApart(r.run, w, x, id))
    ensures var w := Crash(Replay(w0, p), k);
      var s := Replay(w, Told(logs, picks)).server;
      (forall id :: Clear(r.run, w.log, id)) && x.unchecked == {} ==>
        && (TrashAsBefore(r.run, s) <==> Doubled(r.run, w) == {})
        && (AsBefore(r.run, s) <==>
              && Doubled(r.run, w) == {}
              && forall l <- r.run.s0.mail :: l !in w.server.mail ==> Goal(r.run, w.log)(r.run.s0.mail[l].id) == l.folder)
        && forall id :: OneFolder(IntentsOf(r.run, w.log, id)) ==> KeepsCount(r.run, s, id)
  {
    var v := Replay(w0, p);
    DeletesArePermitted(r, w0, before, es, rows0, waived, rows, found, x, p, k);
    MomentOfRun(r, w0, before, es, rows0, waived, rows, p);
    hide Accountable, Ahead, Landed, Inv, Clear, Undone, TermsOf, AsBefore, TrashAsBefore, Permitted, TellsApart,
        SameSite, Goal, AtRest,
      Evens, Repaid, KeepsCount, Doubled, Traced;
    UndoAfterCrash(hasMove, r.run, v, k, x, logs, picks);
    CrashTraced(r.run, v, k);
    var w := Crash(v, k);
    if AtRest(r, v) {
      RestIsNeat(r.run, v);
      SameDoubled(r.run, v, w);
    }
    if Doubled(r.run, w) == {} {
      forall id ensures Evens(r.run, w, x, id) <==> TellsApart(r.run, w, x, id) { NeatEvens(r.run, w, x, id); }
    }
    if (forall id :: Clear(r.run, w.log, id)) && x.unchecked == {} { ClearEvens(r.run, w, x); }
  }

  lemma SameDoubled(r: Run, v: World, w: World)
    requires v.server == w.server && v.came == w.came && v.went == w.went
    ensures Doubled(r, v) == Doubled(r, w)
  {
    assert Arrivals(r, v) == Arrivals(r, w);
  }

  /** The delete phase, stopped at any moment of it on either path, then undos
      interrupted any number of times before one completes, and any after it; with
      no copy in Trash before the phase of a message it recorded. */
  lemma DeleteInterruptedUndo(r: Runner, w0: World, before: History, es: History, rows0: Table, waived: set<string>,
                              rows: seq<Row>, found: seq<Folder>, x: Site, p: History, k: nat, last: Tries, tries: Tries)
    requires Accountable(r, w0, before, es, rows0, waived, rows) && SameSite(r, found, x) && r.trash != NOWHERE
    requires Begins(p, es) && Replay(w0, p).synced <= k <= |Replay(w0, p).log|
    requires var w := Crash(Replay(w0, p), k);
      && NoPriorCopies(r.run, w.log)
      && Completed(r.run, w, x, last) && Interrupted(r.run, w, x, tries) && Extends(tries, last)
    ensures var w := Crash(Replay(w0, p), k);
      var u := After(w, last).server;
      && (TrashAsBefore(r.run, u) <==> Sufficed(r.run, w, x, last))
      && (Sufficed(r.run, w, x, last) ==> After(w, tries).server == u && (tries != last ==> Acted(tries.es) == {}))
      && ((forall id :: Clear(r.run, w.log, id)) && AtRest(r, Replay(w0, p)) ==> Sufficed(r.run, w, x, last))
  {
    var v := Replay(w0, p);
    DeletesArePermitted(r, w0, before, es, rows0, waived, rows, found, x, p, k);
    MomentOfRun(r, w0, before, es, rows0, waived, rows, p);
    assert last.Again?;
    hide Accountable, Ahead, Landed, Inv, Clear, TrashAsBefore, Permitted, SameSite, AtRest, Doubled, Completed,
        Interrupted, Sufficed,
      NoPriorCopies;
    InterruptedUndo(r.run, v, k, x, last, tries);
    if AtRest(r, v) {
      RestIsNeat(r.run, v);
      SameDoubled(r.run, v, Crash(v, k));
    }
  }
}
