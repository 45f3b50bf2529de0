/** What mailshear works against: one IMAP session and the run's audit file.
    Every command may fail, and a command that names several messages may stop
    after any of them, in any order. The constant faults says what may go wrong
    in a session, so that a caller cannot put down to the server what the server
    did not do. The ghost field events records each atomic effect, so a prefix of
    it is what a crash would leave. */
module Host {
  import opened Mailbox
  import opened Audit
  import opened Events

  /** What may go wrong: commands and the audit file may fail if breaks, SELECT
      may be refused for the mailboxes in closed, and FETCH may leave out the
      messages in silent. */
  datatype Faults = Faults(breaks: bool, closed: set<Folder>, silent: set<Loc>)

  class Host {
    var world: World
    var selected: Folder
    const hasMove: bool
    const hasUidPlus: bool
    const faults: Faults
    ghost var events: History

    ghost predicate Valid()
      reads this
    {
      WorldOk(world)
    }

    /** Since the world w0, reached after the events before, exactly es happened. */
    ghost predicate Since(w0: World, before: History, es: History)
      reads this
    {
      && WorldOk(world)
      && events == Append(before, es)
      && world == Replay(w0, es)
      && LegalRun(w0, es)
      && world.server.next.Keys == w0.server.next.Keys && world.server.validity == w0.server.validity
    }

    ghost predicate SameLog(w0: World)
      reads this
    {
      world.log == w0.log && world.synced == w0.synced
    }

    /** From the old state to this one, exactly the events es happened. */
    twostate predicate Did(es: History)
      reads this
    {
      Since(old(world), old(events), es)
    }

    constructor (s: Server, move: bool, uidPlus: bool, f: Faults)
      requires ServerOk(s)
      ensures Valid() && world == World(s, map[], map[], [], 0) && events == Start
      ensures hasMove == move && hasUidPlus == uidPlus && faults == f
    {
      world, selected := World(s, map[], map[], [], 0), NOWHERE;
      hasMove, hasUidPlus, faults := move, uidPlus, f;
      events := Start;
    }

    /** One more atomic effect. */
    method Effect(e: Event, ghost w0: World, ghost before: History, ghost es: History)
      requires Since(w0, before, es) && Legal(world.server, e)
      modifies this
      ensures Since(w0, before, Then(es, e))
      ensures world == Step(old(world), e) && selected == old(selected)
    {
      StepOk(world, e);
      world := Step(world, e);
      events := Then(events, e);
    }

    /** Something fails here, if anything may. */
    method Breaks() returns (broken: bool)
      ensures broken ==> faults.breaks
    {
      broken := *;
      broken := broken && faults.breaks;
    }

    /** SELECT: opens a mailbox for the commands that follow. */
    method Select(name: Folder) returns (ok: bool, validity: nat)
      requires Valid()
      modifies this`selected
      ensures ok ==> name in world.server.next && selected == name && validity == world.server.validity[name]
      ensures !ok ==> selected == old(selected) && (name !in world.server.next || name in faults.closed)
    {
      ok, validity := *, 0;
      if name !in faults.closed { ok := true; }
      if name !in world.server.next { ok := false; }
      if ok {
        selected, validity := name, world.server.validity[name];
      }
    }

    /** The batch of a command is the named messages the mailbox has when the
        command starts. */
    function Present(uids: seq<nat>): set<Loc>
      reads this
    {
      LocsOf(selected, uids) * world.server.mail.Keys
    }

    function Expungeable(uids: seq<nat>): set<Loc>
      reads this
    {
      set l | l in Present(uids) && DELETED in world.server.mail[l].flags
    }

    /** What a command does to one message: an arrival may skip UIDs. */
    method EffectOn(kind: Kind, at: Loc, dest: Folder) returns (e: Event)
      requires Valid() && at in world.server.mail && at.folder == selected
      requires kind.Moving? || kind.Copying? ==> dest in world.server.next
      requires kind.Expunging? ==> DELETED in world.server.mail[at].flags
      ensures Legal(world.server, e) && OfKind(e, kind, selected, dest) && e.at == at
    {
      match kind {
        case Moving => var v: nat :| world.server.next[dest] <= v; e := Moved(at, Loc(dest, v));
        case Copying => var v: nat :| world.server.next[dest] <= v; e := Copied(at, Loc(dest, v));
        case Flagging => e := Flagged(at);
        case Expunging => e := Expunged(at);
      }
    }

    /** A command has acted on all of targets but rest. */
    ghost predicate Partway(w0: World, before: History, es: History, kind: Kind, dest: Folder,
                            targets: set<Loc>, rest: set<Loc>)
      reads this
    {
      && Since(w0, before, es) && SameLog(w0)
      && IsCommand(es, kind, selected, dest)
      && rest <= targets && Acted(es) == targets - rest
      && Agree(w0.server, world.server, rest)
    }

    /** A command's effect on one of the messages it has not reached yet. */
    method Reach(kind: Kind, at: Loc, dest: Folder, ghost w0: World, ghost before: History,
                 ghost es: History, ghost targets: set<Loc>, ghost rest: set<Loc>) returns (ghost e: Event)
      requires Partway(w0, before, es, kind, dest, targets, rest) && at in rest && at.folder == selected
      requires kind.Moving? || kind.Copying? ==> dest in world.server.next
      requires kind.Expunging? ==> DELETED in w0.server.mail[at].flags
      modifies this
      ensures Partway(w0, before, Then(es, e), kind, dest, targets, rest - {at})
      ensures selected == old(selected)
    {
      var f := EffectOn(kind, at, dest);
      AgreeStep(w0.server, world.server, rest, f);
      Effect(f, w0, before, es);
      e := f;
    }

    /** One command on the messages targets of the selected mailbox. */
    method Command(kind: Kind, targets: set<Loc>, dest: Folder) returns (ok: bool, ghost es: History)
      requires Valid() && targets <= world.server.mail.Keys && forall l <- targets :: l.folder == selected
      requires kind.Moving? || kind.Copying? ==> dest in world.server.next
      requires kind.Expunging? ==> forall l <- targets :: DELETED in world.server.mail[l].flags
      modifies this
      ensures Did(es) && selected == old(selected) && SameLog(old(world))
      ensures IsCommand(es, kind, selected, dest) && Acted(es) <= targets
      ensures if ok then Acted(es) == targets else faults.breaks
    {
      es := Start;
      var rest := targets;
      ghost var w0, before := world, events;
      while rest != {}
        invariant Partway(w0, before, es, kind, dest, targets, rest) && selected == old(selected)
      {
        var broken := Breaks();
        if broken { return false, es; }
        var at :| at in rest;
        ghost var e := Reach(kind, at, dest, w0, before, es, targets, rest);
        es := Then(es, e);
        rest := rest - {at};
      }
      var broken := Breaks();
      ok := !broken;
    }

    /** UID MOVE. */
    method UidMove(uids: seq<nat>, dest: Folder) returns (ok: bool, ghost es: History)
      requires Valid()
      modifies this
      ensures Did(es) && selected == old(selected) && SameLog(old(world))
      ensures IsCommand(es, Moving, selected, dest) && Acted(es) <= old(Present(uids))
      ensures if ok then Acted(es) == old(Present(uids)) && dest in world.server.next
              else faults.breaks || dest !in world.server.next
    {
      if dest !in world.server.next { return false, Start; }
      ok, es := Command(Moving, Present(uids), dest);
    }

    /** UID COPY. */
    method UidCopy(uids: seq<nat>, dest: Folder) returns (ok: bool, ghost es: History)
      requires Valid()
      modifies this
      ensures Did(es) && selected == old(selected) && SameLog(old(world))
      ensures IsCommand(es, Copying, selected, dest) && Acted(es) <= old(Present(uids))
      ensures if ok then Acted(es) == old(Present(uids)) && dest in world.server.next
              else faults.breaks || dest !in world.server.next
    {
      if dest !in world.server.next { return false, Start; }
      ok, es := Command(Copying, Present(uids), dest);
    }

    /** UID STORE +FLAGS.SILENT (\\Deleted). */
    method UidStoreDeleted(uids: seq<nat>, ghost dest: Folder) returns (ok: bool, ghost es: History)
      requires Valid()
      modifies this
      ensures Did(es) && selected == old(selected) && SameLog(old(world))
      ensures IsCommand(es, Flagging, selected, dest) && Acted(es) <= old(Present(uids))
      ensures if ok then Acted(es) == old(Present(uids)) else faults.breaks
    {
      ok, es := Command(Flagging, Present(uids), NOWHERE);
      CommandDst(es, Flagging, selected, NOWHERE, dest);
    }

    /** UID EXPUNGE: removes the named messages that carry \\Deleted, and no
        others (section 2.1 of RFC 4315). */
    method UidExpunge(uids: seq<nat>, ghost dest: Folder) returns (ok: bool, ghost es: History)
      requires Valid()
      modifies this
      ensures Did(es) && selected == old(selected) && SameLog(old(world))
      ensures IsCommand(es, Expunging, selected, dest) && Acted(es) <= old(Expungeable(uids))
      ensures if ok then Acted(es) == old(Expungeable(uids)) else faults.breaks
    {
      ok, es := Command(Expunging, Expungeable(uids), NOWHERE);
      CommandDst(es, Expunging, selected, NOWHERE, dest);
    }
  }

  /** What happened, and then what happened next. */
  lemma SinceAppend(h: Host, w0: World, before: History, a: History, b: History)
    requires h.Since(Replay(w0, a), Append(before, a), b)
    requires LegalRun(w0, a) && Replay(w0, a).server.next.Keys == w0.server.next.Keys
    requires Replay(w0, a).server.validity == w0.server.validity
    ensures h.Since(w0, before, Append(a, b))
  {
    AppendReplay(w0, a, b);
    AppendAppend(before, a, b);
  }
}
