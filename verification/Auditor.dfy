/** The writer of the audit log (internal/apply/audit.go). */
module Auditor {
  import opened Mailbox
  import opened Audit
  import opened Events
  import opened Host

  class Auditor {
    const host: Host
    const account: string
    /** The first failure is remembered: it stops the run before its next
        irreversible step. */
    var failed: bool

    constructor (h: Host, acct: string)
      ensures host == h && account == acct && !failed
    {
      host, account, failed := h, acct, false;
    }

    /** Appends one line, or remembers that it could not. */
    method Write(l: Line) returns (ghost es: History)
      requires host.Valid()
      modifies this, host
      ensures host.Did(es) && host.selected == old(host.selected)
      ensures es == Start || es == Then(Start, Wrote(l.(account := account)))
      ensures host.world.server == old(host.world.server) && host.world.came == old(host.world.came)
      ensures host.world.synced == old(host.world.synced)
      ensures host.world.log == old(host.world.log) + if es == Start then [] else [l.(account := account)]
      ensures es == Start ==> failed
      ensures old(failed) ==> failed
      ensures failed ==> old(failed) || host.faults.breaks
    {
      es := Start;
      var refused := host.Breaks();
      if refused {
        failed := true;
      } else {
        host.Effect(Wrote(l.(account := account)), host.world, host.events, Start);
        es := Then(Start, Wrote(l.(account := account)));
      }
    }

    /** Makes the log durable. Refuses after any failure, so ok means that every
        line written so far is on disk. */
    method Sync() returns (ok: bool, ghost es: History)
      requires host.Valid()
      modifies this, host
      ensures host.Did(es) && host.selected == old(host.selected)
      ensures host.world.server == old(host.world.server) && host.world.came == old(host.world.came)
      ensures host.world.log == old(host.world.log)
      ensures host.world.synced == if ok then |host.world.log| else old(host.world.synced)
      ensures ok ==> es == Then(Start, Synced) && !failed && !old(failed)
      ensures !ok ==> es == Start && failed && (old(failed) || host.faults.breaks)
    {
      es := Start;
      if failed { return false, es; }
      var refused := host.Breaks();
      if refused {
        failed := true;
        return false, es;
      }
      host.Effect(Synced, host.world, host.events, Start);
      es := Then(Start, Synced);
      ok := true;
    }
  }
}
