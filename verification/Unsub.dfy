/** The unsubscribe executor (internal/unsub/unsub.go): one goroutine a target,
    a reserved slot a request for each destination host, and a counting
    semaphore over all requests, as a system of atomic steps. */
module Unsub {

  datatype Kind = OneClick | Get | Mail

  /** A target with its links sorted by scheme. */
  datatype Target = Target(sender: string, oneClick: bool, https: seq<string>, http: seq<string>, mailto: seq<string>)

  datatype Config = Config(
    httpGet: bool, redirects: int, smtp: bool, interval: nat, maxInFlight: nat,
    hostKey: string -> string, smtpKey: string)

  datatype Status = Ok | Probable | Manual | Failed

  /** What one request came to: no answer at all, or an HTTP status (for mail, any acceptance). */
  datatype Outcome = NoAnswer | Answer(code: nat)

  datatype Reply = Reply(status: Status, http: nat)

  datatype Option<T> = None | Some(value: T)

  datatype Result = Result(sender: string, kind: Option<Kind>, uri: string, reply: Reply)

  /** A request to make; after is the one-click reply it is the fallback of. */
  datatype Job = Job(kind: Kind, uri: string, after: Option<Reply>)

  const GAVE_UP := Reply(Failed, 0)

  /** Where a goroutine is. ticket is the number of its slot among its host's;
      hops are the redirects its request has followed. */
  datatype Phase =
    | Fresh
    | Ready(job: Job)                              // about to reserve a slot
    | Waiting(job: Job, ticket: nat)               // for its slot to come
    | Queueing(job: Job, ticket: nat)              // for the semaphore
    | Sending(job: Job, ticket: nat, start: int, hops: nat)   // holding the semaphore
    | Done(res: Result)

  /** A request that was started: on a slot of its host, or to follow a redirect. */
  datatype Request = Slotted(key: string, ticket: nat, start: int) | Hop(key: string, start: int)

  /** next is each host's limiter; slots every slot ever reserved of it; sends
      every request started. */
  datatype Sys = Sys(
    now: int, cancelled: bool, next: map<string, int>, sem: nat, phase: seq<Phase>,
    slots: map<string, seq<int>>, sends: seq<Request>)

  function KeyOf(c: Config, job: Job): string {
    if job.kind == Mail then c.smtpKey else c.hostKey(job.uri)
  }

  /** A web request counts against the host of its link, a mail against the server. */
  lemma KeyMeaning(c: Config, job: Job)
    ensures job.kind.Mail? ==> KeyOf(c, job) == c.smtpKey
    ensures !job.kind.Mail? ==> KeyOf(c, job) == c.hostKey(job.uri)
  {
  }

  function FirstOf(t: Target): string
    requires t.https != [] || t.http != []
  {
    if t.https != [] then t.https[0] else t.http[0]
  }

  function NoAttempt(t: Target, kind: Option<Kind>): Phase {
    Done(Result(t.sender, kind, "", Reply(Manual, 0)))
  }

  /** What a target calls for. */
  function First(c: Config, t: Target): Phase {
    if t.oneClick && (t.https != [] || t.http != []) then Ready(Job(OneClick, FirstOf(t), None))
    else if t.https != [] || t.http != [] then
      if c.httpGet then Ready(Job(Get, FirstOf(t), None)) else NoAttempt(t, Some(Get))
    else if t.mailto != [] then
      if c.smtp then Ready(Job(Mail, t.mailto[0], None)) else NoAttempt(t, Some(Mail))
    else NoAttempt(t, None)
  }

  function Judge(kind: Kind, o: Outcome): Reply {
    if o.NoAnswer? then GAVE_UP
    else match kind
      case Mail => Reply(Ok, 0)
      case OneClick => Reply(if 200 <= o.code < 300 then Ok else Failed, o.code)
      case Get => Reply(if 200 <= o.code < 300 then Probable else Failed, o.code)
  }

  predicate FallsBack(c: Config, job: Job, reply: Reply) {
    c.httpGet && job.kind == OneClick && reply.status == Failed && 300 <= reply.http < 400
  }

  /** Where a request that came to reply leaves its goroutine: a one-click that
      was redirected goes on to a GET of the same link. */
  function After(c: Config, t: Target, job: Job, reply: Reply): Phase {
    if FallsBack(c, job, reply) then Ready(Job(Get, job.uri, Some(reply)))
    else if job.after.Some? && reply.status == Failed then
      Done(Result(t.sender, Some(OneClick), job.uri, job.after.value))
    else Done(Result(t.sender, Some(job.kind), job.uri, reply))
  }

  /** Where giving up leaves a goroutine. A mail that was not let through has no
      link in its result. */
  function GivenUp(c: Config, t: Target, p: Phase, refused: bool): Phase
    requires !p.Done?
  {
    if p.Fresh? then Done(Result(t.sender, None, "", GAVE_UP))
    else if p.job.kind == Mail && !refused then Done(Result(t.sender, Some(Mail), "", GAVE_UP))
    else After(c, t, p.job, GAVE_UP)
  }

  /** One atomic step, with the choices the world makes in it. */
  datatype Act =
    | Tick(t: int)
    | Cancel
    | Begin(i: nat)
    | GiveUp(i: nat, refused: bool)   // refused before it waits, or cancelled while not sending
    | Reserve(i: nat)
    | Wake(i: nat)
    | Acquire(i: nat)
    | Redirect(i: nat, uri: string)   // answered with a redirect that is followed
    | Finish(i: nat, o: Outcome)   // releases the semaphore whatever happened

  predicate OfGoroutine(a: Act) {
    !a.Tick? && !a.Cancel?
  }

  predicate Enabled(c: Config, ts: seq<Target>, s: Sys, a: Act) {
    match a
    case Tick(t) => s.now <= t
    case Cancel => true
    case Begin(i) => i < |s.phase| == |ts| && s.phase[i].Fresh? && !s.cancelled
    case GiveUp(i, refused) => i < |s.phase| == |ts| &&
      if refused then s.phase[i].Ready? else s.cancelled && !s.phase[i].Sending? && !s.phase[i].Done?
    case Reserve(i) => i < |s.phase| == |ts| && s.phase[i].Ready? && !s.cancelled
    case Wake(i) => i < |s.phase| == |ts| && s.phase[i].Waiting? && SlotOf(c, s, s.phase[i]) <= s.now
    case Acquire(i) => i < |s.phase| == |ts| && s.phase[i].Queueing? && s.sem < c.maxInFlight
    case Redirect(i, _) => i < |s.phase| == |ts| && s.phase[i].Sending? && !s.cancelled && Follows(c, s.phase[i])
    case Finish(i, _) => i < |s.phase| == |ts| && s.phase[i].Sending? && 0 < s.sem
  }

  /** A GET follows a redirect while it has made fewer requests than the limit;
      the first one counts. */
  predicate Follows(c: Config, p: Phase)
    requires p.Sending?
  {
    p.job.kind == Get && 1 + p.hops < c.redirects
  }

  predicate Ticketed(p: Phase) {
    p.Waiting? || p.Queueing? || p.Sending?
  }

  function SlotOf(c: Config, s: Sys, p: Phase): int
    requires Ticketed(p)
  {
    var k := KeyOf(c, p.job);
    if k in s.slots && p.ticket < |s.slots[k]| then s.slots[k][p.ticket] else 0
  }

  function To(s: Sys, i: nat, p: Phase): Sys
    requires i < |s.phase|
  {
    s.(phase := s.phase[i := p])
  }

  /** The slot a host's limiter gives out next. */
  function NextSlot(s: Sys, key: string): int {
    if key in s.next && s.now < s.next[key] then s.next[key] else s.now
  }

  function SlotsOf(s: Sys, key: string): seq<int> {
    if key in s.slots then s.slots[key] else []
  }

  function Next(c: Config, ts: seq<Target>, s: Sys, a: Act): Sys
    requires Enabled(c, ts, s, a)
  {
    match a
    case Tick(t) => s.(now := t)
    case Cancel => s.(cancelled := true)
    case Begin(i) => To(s, i, First(c, ts[i]))
    case GiveUp(i, refused) => To(s, i, GivenUp(c, ts[i], s.phase[i], refused))
    case Reserve(i) =>
      var key := KeyOf(c, s.phase[i].job);
      var start := NextSlot(s, key);
      To(s, i, Waiting(s.phase[i].job, |SlotsOf(s, key)|)).(
        next := s.next[key := start + c.interval],
        slots := s.slots[key := SlotsOf(s, key) + [start]])
    case Wake(i) => To(s, i, Queueing(s.phase[i].job, s.phase[i].ticket))
    case Acquire(i) =>
      var p := s.phase[i];
      To(s, i, Sending(p.job, p.ticket, s.now, 0)).(
        sem := s.sem + 1, sends := s.sends + [Slotted(KeyOf(c, p.job), p.ticket, s.now)])
    case Redirect(i, uri) =>
      var p := s.phase[i];
      To(s, i, p.(hops := p.hops + 1)).(sends := s.sends + [Hop(c.hostKey(uri), s.now)])
    case Finish(i, o) =>
      var p := s.phase[i];
      To(s, i, After(c, ts[i], p.job, Judge(p.job.kind, o))).(sem := s.sem - 1)
  }

  /** The goroutines that hold the semaphore. */
  ghost function Holders(s: Sys): set<nat> {
    set i | 0 <= i < |s.phase| && s.phase[i].Sending?
  }

  ghost predicate SemOk(c: Config, s: Sys) {
    s.sem == |Holders(s)| <= c.maxInFlight
  }

  /** Each slot of one host is at least an interval after the one before. */
  ghost predicate Spaced(slots: seq<int>, interval: nat) {
    forall j :: 0 <= j < |slots| - 1 ==> slots[j] + interval <= slots[j + 1]
  }

  ghost predicate SlotsOk(c: Config, s: Sys) {
    && s.next.Keys == s.slots.Keys
    && forall k <- s.slots ::
         s.slots[k] != [] && Spaced(s.slots[k], c.interval) && s.next[k] == s.slots[k][|s.slots[k]| - 1] + c.interval
  }

  ghost predicate Issued(s: Sys, key: string, ticket: nat) {
    key in s.slots && ticket < |s.slots[key]|
  }

  /** Goroutine i is on slot ticket of host key, and has not started its request yet. */
  ghost predicate Pending(c: Config, s: Sys, i: nat, key: string, ticket: nat) {
    && i < |s.phase| && (s.phase[i].Waiting? || s.phase[i].Queueing?)
    && KeyOf(c, s.phase[i].job) == key && s.phase[i].ticket == ticket
  }

  /** Every slot held was given out, and its time has come once the wait is over. */
  ghost predicate HeldOk(c: Config, s: Sys) {
    forall i :: 0 <= i < |s.phase| && Ticketed(s.phase[i]) ==>
      && Issued(s, KeyOf(c, s.phase[i].job), s.phase[i].ticket)
      && (!s.phase[i].Waiting? ==> SlotOf(c, s, s.phase[i]) <= s.now)
  }

  /** No two requests to come are on the same slot. */
  ghost predicate PendingApart(c: Config, s: Sys) {
    forall i, j, k, n :: Pending(c, s, i, k, n) && Pending(c, s, j, k, n) ==> i == j
  }

  /** A request that takes a slot was started on one that was given out, and not
      before it. */
  ghost predicate SentOk(s: Sys) {
    forall x <- s.sends :: x.Slotted? ==>
      Issued(s, x.key, x.ticket) && s.slots[x.key][x.ticket] <= x.start <= s.now
  }

  /** No two requests were started on the same slot. */
  ghost predicate SentApart(s: Sys) {
    forall x, y :: 0 <= x < y < |s.sends| && s.sends[x].Slotted? && s.sends[y].Slotted? ==>
      (s.sends[x].key != s.sends[y].key || s.sends[x].ticket != s.sends[y].ticket)
  }

  /** Nor is one to come on the slot of one that was started. */
  ghost predicate Unsent(c: Config, s: Sys) {
    forall i, x :: x in s.sends && x.Slotted? ==> !Pending(c, s, i, x.key, x.ticket)
  }

  ghost predicate TicketsOk(c: Config, s: Sys) {
    HeldOk(c, s) && PendingApart(c, s) && SentOk(s) && SentApart(s) && Unsent(c, s)
  }

  /** A request in flight or to come is the one its target calls for, or the
      fallback of a one-click that was redirected. */
  ghost predicate JobFor(c: Config, t: Target, job: Job) {
    if job.after.None? then First(c, t) == Ready(job)
    else
      && c.httpGet && job.kind == Get && First(c, t) == Ready(Job(OneClick, job.uri, None))
      && job.after.value.status == Failed && 300 <= job.after.value.http < 400
  }

  /** What a target's result says is true of the target: success only of the
      request it calls for, answered with a 2xx; manual only if nothing could be
      tried; and a link of its own, but for a mail that was never let through. */
  ghost predicate ResultFor(c: Config, t: Target, res: Result) {
    && res.sender == t.sender
    && (res.reply.status == Manual <==> First(c, t) == Done(res))
    && (res.reply.status == Ok ==>
          && First(c, t).Ready? && First(c, t).job == Job(First(c, t).job.kind, res.uri, None)
          && res.kind == Some(First(c, t).job.kind) && res.kind != Some(Get)
          && (res.kind == Some(OneClick) ==> 200 <= res.reply.http < 300))
    && (res.reply.status == Probable ==>
          && res.kind == Some(Get) && c.httpGet && 200 <= res.reply.http < 300
          && First(c, t).Ready? && First(c, t).job.uri == res.uri && First(c, t).job.kind != Mail)
    && (res.reply.status == Failed && res.kind.Some? ==>
          && First(c, t).Ready? && First(c, t).job.kind == res.kind.value
          && (First(c, t).job.uri == res.uri || (res.kind == Some(Mail) && res.uri == "")))
  }

  ghost predicate PhaseFor(c: Config, t: Target, p: Phase) {
    match p
    case Fresh => true
    case Done(res) => ResultFor(c, t, res)
    case Ready(job) => JobFor(c, t, job)
    case Waiting(job, _) => JobFor(c, t, job)
    case Queueing(job, _) => JobFor(c, t, job)
    case Sending(job, _, _, _) => JobFor(c, t, job)
  }

  /** One request of a goroutine that came to an end, and how: started and heard
      of, or given up before, for it was refused or the run was cancelled. */
  datatype Heard = Heard(kind: Kind, uri: string, o: Outcome) | Dropped(kind: Kind, uri: string, refused: bool)

  /** The target asks for a request of this kind to this link: the web before
      mail, https before http, the first link of a kind before the others. */
  ghost predicate Calls(c: Config, t: Target, kind: Kind, uri: string) {
    if t.https != [] || t.http != [] then
      && uri == (if t.https != [] then t.https[0] else t.http[0])
      && (if t.oneClick then kind == OneClick else kind == Get && c.httpGet)
    else t.mailto != [] && c.smtp && kind == Mail && uri == t.mailto[0]
  }

  /** What one request's end says of its sender. A mail that was never let
      through has no link in its result. */
  ghost predicate Means(x: Heard, res: Result) {
    && res.kind == Some(x.kind)
    && (if x.Dropped? && x.kind == Mail && !x.refused then res.uri == "" else res.uri == x.uri)
    && if x.Dropped? || x.o.NoAnswer? then res.reply == Reply(Failed, 0)
       else if x.kind == Mail then res.reply == Reply(Ok, 0)
       else
         res.reply == Reply(if !(200 <= x.o.code < 300) then Failed else if x.kind == OneClick then Ok else Probable, x.o.code)
  }

  ghost predicate Redirected(x: Heard) {
    x.kind == OneClick && x.Heard? && x.o.Answer? && 300 <= x.o.code < 400
  }

  /** A target's result is what its requests came to: nothing tried is manual,
      and that exactly if there was nothing to try, unless the run was cancelled
      before; a one-click counts as it was answered, but one that was redirected
      is followed by a GET, if that is allowed, which counts if it gets through.
      A request is given up only if it is refused or the run cancelled. */
  ghost predicate Earned(c: Config, t: Target, res: Result, h: seq<Heard>, cancelled: bool) {
    && res.sender == t.sender
    && (h != [] ==> Calls(c, t, h[0].kind, h[0].uri))
    && (forall x <- h :: x.Dropped? && !x.refused ==> cancelled)
    && match |h|
       case 0 =>
         if res.reply.status == Manual then
           && (forall kind, uri :: !Calls(c, t, kind, uri)) && res.uri == "" && res.reply == Reply(Manual, 0)
           && res.kind == (if t.https != [] || t.http != [] then Some(Get) else if t.mailto != [] then Some(Mail) else None)
         else cancelled && res.kind == None && res.uri == "" && res.reply == Reply(Failed, 0)
       case 1 => !(Redirected(h[0]) && c.httpGet) && Means(h[0], res)
       case 2 =>
         && Redirected(h[0]) && c.httpGet && h[1].kind == Get && h[1].uri == h[0].uri
         && (if h[1].Heard? && h[1].o.Answer? && 200 <= h[1].o.code < 300 then Means(h[1], res) else Means(h[0], res))
       case _ => false
  }

  /** What a goroutine has heard so far. */
  ghost predicate ToldSoFar(c: Config, t: Target, p: Phase, h: seq<Heard>, cancelled: bool) {
    match p
    case Fresh => h == []
    case Done(res) => Earned(c, t, res, h, cancelled)
    case _ =>
      if p.job.after.None? then h == [] && Calls(c, t, p.job.kind, p.job.uri)
      else
        && |h| == 1 && Redirected(h[0]) && c.httpGet && p.job.kind == Get && h[0].uri == p.job.uri
        && Calls(c, t, OneClick, p.job.uri) && p.job.after == Some(Reply(Failed, h[0].o.code))
  }

  ghost predicate AllTold(c: Config, ts: seq<Target>, phase: seq<Phase>, heard: seq<seq<Heard>>, cancelled: bool) {
    |phase| == |ts| == |heard| && forall i :: 0 <= i < |ts| ==> ToldSoFar(c, ts[i], phase[i], heard[i], cancelled)
  }

  /** What the goroutines have heard when a has been done. */
  ghost function HeardBy(s: Sys, heard: seq<seq<Heard>>, a: Act): seq<seq<Heard>> {
    if a.Finish? && a.i < |s.phase| == |heard| && s.phase[a.i].Sending? then
      heard[a.i := heard[a.i] + [Heard(s.phase[a.i].job.kind, s.phase[a.i].job.uri, a.o)]]
    else if a.GiveUp? && a.i < |s.phase| == |heard| && HasJob(s.phase[a.i]) then
      heard[a.i := heard[a.i] + [Dropped(s.phase[a.i].job.kind, s.phase[a.i].job.uri, a.refused)]]
    else heard
  }

  lemma FirstCalls(c: Config, t: Target, cancelled: bool)
    ensures ToldSoFar(c, t, First(c, t), [], cancelled)
  {
  }

  lemma GivenUpEarned(c: Config, t: Target, p: Phase, refused: bool, h: seq<Heard>, cancelled: bool)
    requires ToldSoFar(c, t, p, h, cancelled) && !p.Done? && (refused ==> !p.Fresh?) && (!refused ==> cancelled)
    ensures ToldSoFar(c, t, GivenUp(c, t, p, refused),
                      h + if HasJob(p) then [Dropped(p.job.kind, p.job.uri, refused)] else [], cancelled)
  {
    if HasJob(p) {
      var x := Dropped(p.job.kind, p.job.uri, refused);
      assert (h + [x])[|h|] == x;
    }
  }

  lemma FinishedEarned(c: Config, t: Target, p: Phase, o: Outcome, h: seq<Heard>, cancelled: bool)
    requires ToldSoFar(c, t, p, h, cancelled) && p.Sending?
    ensures ToldSoFar(c, t, After(c, t, p.job, Judge(p.job.kind, o)), h + [Heard(p.job.kind, p.job.uri, o)], cancelled)
  {
    assert (h + [Heard(p.job.kind, p.job.uri, o)])[|h|] == Heard(p.job.kind, p.job.uri, o);
  }

  lemma CancelledTold(c: Config, t: Target, p: Phase, h: seq<Heard>, cancelled: bool)
    requires ToldSoFar(c, t, p, h, cancelled)
    ensures ToldSoFar(c, t, p, h, true)
  {
  }

  /** Every step leaves each goroutine with what it has heard. */
  lemma ToldStep(c: Config, ts: seq<Target>, s: Sys, a: Act, heard: seq<seq<Heard>>)
    requires Enabled(c, ts, s, a) && AllTold(c, ts, s.phase, heard, s.cancelled)
    ensures AllTold(c, ts, Next(c, ts, s, a).phase, HeardBy(s, heard, a), Next(c, ts, s, a).cancelled)
  {
    hide First, GivenUp, After, Judge, Earned, Calls;
    match a {
      case Cancel => forall i | 0 <= i < |ts| { CancelledTold(c, ts[i], s.phase[i], heard[i], s.cancelled); }
      case Begin(i) => FirstCalls(c, ts[i], s.cancelled);
      case GiveUp(i, refused) =>
        GivenUpEarned(c, ts[i], s.phase[i], refused, heard[i], s.cancelled);
        assert heard[i] + [] == heard[i];
      case Finish(i, o) => FinishedEarned(c, ts[i], s.phase[i], o, heard[i], s.cancelled);
      case _ =>
    }
  }

  ghost predicate JobsOk(c: Config, ts: seq<Target>, s: Sys) {
    |s.phase| == |ts| && forall i :: 0 <= i < |ts| ==> PhaseFor(c, ts[i], s.phase[i])
  }

  /** How many redirects a GET that has followed some follows still. */
  function HopsLeft(c: Config, hops: nat): nat {
    if 1 + hops < c.redirects then c.redirects - 1 - hops else 0
  }

  function Sum(f: Phase -> nat, ps: seq<Phase>): nat {
    if ps == [] then 0 else Sum(f, ps[..|ps| - 1]) + f(ps[|ps| - 1])
  }

  lemma {:induction false} SumAt(f: Phase -> nat, ps: seq<Phase>, i: nat, p: Phase)
    requires i < |ps|
    ensures Sum(f, ps[i := p]) + f(ps[i]) == Sum(f, ps) + f(p)
    decreases |ps|
  {
    var front := ps[..|ps| - 1];
    if i < |front| {
      SumAt(f, front, i, p);
      assert ps[i := p][..|ps| - 1] == front[i := p];
    } else {
      assert ps[i := p][..|ps| - 1] == front;
    }
  }

  function Spares(c: Config): Phase -> nat {
    (p: Phase) => if p.Sending? then HopsLeft(c, p.hops) else 0
  }

  function Hops(sends: seq<Request>): nat {
    if sends == [] then 0 else Hops(sends[..|sends| - 1]) + if sends[|sends| - 1].Hop? then 1 else 0
  }

  lemma HopsMore(sends: seq<Request>, x: Request)
    ensures Hops(sends + [x]) == Hops(sends) + if x.Hop? then 1 else 0
  {
    assert (sends + [x])[..|sends|] == sends;
  }

  /** The redirects followed, and those still to be followed by requests in
      flight, are no more than the limit allows each request that took a slot. */
  ghost predicate HopsOk(c: Config, s: Sys) {
    Hops(s.sends) + Sum(Spares(c), s.phase) <= HopsLeft(c, 0) * (|s.sends| - Hops(s.sends))
  }

  /** What holds in every state the executor can reach. */
  ghost predicate Inv(c: Config, ts: seq<Target>, s: Sys) {
    SemOk(c, s) && SlotsOk(c, s) && TicketsOk(c, s) && JobsOk(c, ts, s) && HopsOk(c, s)
  }

  /** Who holds the semaphore when one goroutine moves on. */
  lemma HoldersMoved(s: Sys, i: nat, p: Phase)
    requires i < |s.phase|
    ensures Holders(To(s, i, p)) == if p.Sending? then Holders(s) + {i} else Holders(s) - {i}
  {
  }

  lemma SameHolders(s: Sys, s': Sys)
    requires s'.phase == s.phase
    ensures Holders(s') == Holders(s)
  {
  }

  lemma SemStep(c: Config, ts: seq<Target>, s: Sys, a: Act)
    requires Enabled(c, ts, s, a) && SemOk(c, s)
    ensures SemOk(c, Next(c, ts, s, a))
  {
    hide First, After, Judge;
    var s' := Next(c, ts, s, a);
    if a.Tick? || a.Cancel? {
      SameHolders(s, s');
    } else {
      MovesOn(c, ts, s, a);
      HoldersMoved(s, a.i, s'.phase[a.i]);
      SameHolders(To(s, a.i, s'.phase[a.i]), s');
      assert s.phase[a.i].Sending? <==> a.i in Holders(s);
    }
  }

  /** A goroutine comes to hold the semaphore by acquiring it only, and holds it
      through redirects. */
  lemma MovesOn(c: Config, ts: seq<Target>, s: Sys, a: Act)
    requires Enabled(c, ts, s, a) && !a.Tick? && !a.Cancel?
    ensures var s' := Next(c, ts, s, a);
      && a.i < |s.phase| && s'.phase == s.phase[a.i := s'.phase[a.i]]
      && (s'.phase[a.i].Sending? <==> a.Acquire? || a.Redirect?)
      && (s.phase[a.i].Sending? <==> a.Finish? || a.Redirect?)
      && s'.sem == (if a.Acquire? then s.sem + 1 else if a.Finish? then s.sem - 1 else s.sem)
  {
  }

  lemma HopsStep(c: Config, ts: seq<Target>, s: Sys, a: Act)
    requires Enabled(c, ts, s, a) && HopsOk(c, s)
    ensures HopsOk(c, Next(c, ts, s, a))
  {
    if OfGoroutine(a) {
      SpareMoves(c, ts, s, a);
      hide *;
      HopsMoved(c, s, Next(c, ts, s, a), a.i, a.Acquire?, a.Redirect?);
    }
  }

  lemma HopsMoved(c: Config, s: Sys, s': Sys, i: nat, starts: bool, hops: bool)
    requires HopsOk(c, s) && SparesMoved(c, s, s', i, starts, hops)
    ensures HopsOk(c, s')
  {
    hide Sum, HopsLeft, Spares;
    SumAt(Spares(c), s.phase, i, s'.phase[i]);
    if starts || hops {
      HopsMore(s.sends, s'.sends[|s.sends|]);
      OnceMore(HopsLeft(c, 0), |s.sends| - Hops(s.sends));
    }
  }

  /** Goroutine i starts its request, follows a redirect, or does neither and is
      not sending. */
  ghost predicate SparesMoved(c: Config, s: Sys, s': Sys, i: nat, starts: bool, hops: bool) {
    && i < |s.phase| == |s'.phase| && s'.phase == s.phase[i := s'.phase[i]] && !(starts && hops)
    && (if starts || hops then
          |s'.sends| == |s.sends| + 1 && s'.sends == s.sends + [s'.sends[|s.sends|]]
        else s'.sends == s.sends)
    && (starts ==> s'.sends[|s.sends|].Slotted? && Spares(c)(s'.phase[i]) == HopsLeft(c, 0))
    && (hops ==> s'.sends[|s.sends|].Hop? && Spares(c)(s'.phase[i]) + 1 == Spares(c)(s.phase[i]))
    && (!starts && !hops ==> Spares(c)(s'.phase[i]) == 0)
  }

  lemma SpareMoves(c: Config, ts: seq<Target>, s: Sys, a: Act)
    requires Enabled(c, ts, s, a) && OfGoroutine(a)
    ensures SparesMoved(c, s, Next(c, ts, s, a), a.i, a.Acquire?, a.Redirect?)
  {
    hide First, After, Judge;
    MovesOn(c, ts, s, a);
  }

  lemma OnceMore(a: nat, n: int)
    ensures a * (n + 1) == a * n + a
  {
  }

  lemma SlotsStep(c: Config, ts: seq<Target>, s: Sys, a: Act)
    requires Enabled(c, ts, s, a) && SlotsOk(c, s)
    ensures SlotsOk(c, Next(c, ts, s, a))
  {
    if a.Reserve? {
      ReserveSlots(c, s, KeyOf(c, s.phase[a.i].job), Next(c, ts, s, a));
    } else {
      var s' := Next(c, ts, s, a);
      assert s'.next == s.next && s'.slots == s.slots;
    }
  }

  /** A limiter's next slot is an interval or more after its last. */
  lemma ReserveSlots(c: Config, s: Sys, key: string, s': Sys)
    requires SlotsOk(c, s)
    requires s'.next == s.next[key := NextSlot(s, key) + c.interval]
    requires s'.slots == s.slots[key := SlotsOf(s, key) + [NextSlot(s, key)]]
    ensures SlotsOk(c, s')
  {
    SpacedMore(SlotsOf(s, key), c.interval, NextSlot(s, key));
  }

  lemma SpacedMore(slots: seq<int>, interval: nat, start: int)
    requires Spaced(slots, interval) && (slots != [] ==> slots[|slots| - 1] + interval <= start)
    ensures Spaced(slots + [start], interval)
  {
  }

  lemma FirstFits(c: Config, t: Target)
    ensures PhaseFor(c, t, First(c, t))
    ensures ResultFor(c, t, Result(t.sender, None, "", GAVE_UP))
  {
  }

  lemma AfterFits(c: Config, t: Target, job: Job, reply: Reply)
    requires JobFor(c, t, job) && (exists o :: reply == Judge(job.kind, o))
    ensures PhaseFor(c, t, After(c, t, job, reply))
  {
  }

  lemma GivenUpFits(c: Config, t: Target, p: Phase, refused: bool)
    requires PhaseFor(c, t, p) && !p.Done?
    ensures PhaseFor(c, t, GivenUp(c, t, p, refused)) && !Ticketed(GivenUp(c, t, p, refused))
  {
    FirstFits(c, t);
    if !p.Fresh? {
      assert GAVE_UP == Judge(p.job.kind, NoAnswer);
      AfterFits(c, t, p.job, GAVE_UP);
    }
  }

  lemma JobsStep(c: Config, ts: seq<Target>, s: Sys, a: Act)
    requires Enabled(c, ts, s, a) && JobsOk(c, ts, s)
    ensures JobsOk(c, ts, Next(c, ts, s, a))
  {
    hide ResultFor, JobFor;
    match a {
      case Begin(i) => FirstFits(c, ts[i]);
      case GiveUp(i, refused) => GivenUpFits(c, ts[i], s.phase[i], refused);
      case Finish(i, o) => AfterFits(c, ts[i], s.phase[i].job, Judge(s.phase[i].job.kind, o));
      case _ =>
    }
  }

  /** Steps that reserve and start nothing: i keeps its slot or lets it go. */
  lemma QuietTickets(c: Config, s: Sys, i: nat, p: Phase, s': Sys)
    requires TicketsOk(c, s) && i < |s.phase|
    requires s'.phase == s.phase[i := p] && s'.slots == s.slots && s'.sends == s.sends && s'.now == s.now
    requires Ticketed(p) ==> p.Queueing? && s.phase[i] == Waiting(p.job, p.ticket) && SlotOf(c, s, s.phase[i]) <= s.now
    ensures TicketsOk(c, s')
  {
    assert forall j, k, n :: Pending(c, s', j, k, n) ==> Pending(c, s, j, k, n);
    assert forall j :: 0 <= j < |s.phase| && j != i ==> s'.phase[j] == s.phase[j];
    hide Pending;
    assert SentOk(s') && SentApart(s') && Unsent(c, s') && PendingApart(c, s');
  }

  lemma ReserveTickets(c: Config, s: Sys, i: nat, s': Sys)
    requires TicketsOk(c, s) && i < |s.phase| && s.phase[i].Ready?
    requires var job := s.phase[i].job;
      var key := KeyOf(c, job);
      && s'.phase == s.phase[i := Waiting(job, |SlotsOf(s, key)|)] && s'.sends == s.sends && s'.now == s.now
      && s'.slots == s.slots[key := SlotsOf(s, key) + [NextSlot(s, key)]]
    ensures TicketsOk(c, s')
  {
    var key := KeyOf(c, s.phase[i].job);
    var n := |SlotsOf(s, key)|;
    forall j, k, m ensures Pending(c, s', j, k, m) ==> (Pending(c, s, j, k, m) || (j == i && k == key && m == n)) {
    }
    forall j, k, m ensures Pending(c, s, j, k, m) ==> Issued(s, k, m) {
    }
    assert forall k, m: nat :: Issued(s, k, m) ==> Issued(s', k, m) && s'.slots[k][m] == s.slots[k][m] && (k, m) != (key, n);
    hide Pending, NextSlot;
    assert PendingApart(c, s') && Unsent(c, s');
    assert SentOk(s') && SentApart(s');
    forall j | 0 <= j < |s'.phase| && Ticketed(s'.phase[j])
      ensures Issued(s', KeyOf(c, s'.phase[j].job), s'.phase[j].ticket)
      ensures !s'.phase[j].Waiting? ==> SlotOf(c, s', s'.phase[j]) <= s'.now
    {
      if j != i { assert s'.phase[j] == s.phase[j]; }
    }
  }

  lemma AcquireTickets(c: Config, s: Sys, i: nat, s': Sys)
    requires TicketsOk(c, s) && i < |s.phase| && s.phase[i].Queueing?
    requires var p := s.phase[i];
      && s'.phase == s.phase[i := Sending(p.job, p.ticket, s.now, 0)] && s'.slots == s.slots && s'.now == s.now
      && s'.sends == s.sends + [Slotted(KeyOf(c, p.job), p.ticket, s.now)]
    ensures TicketsOk(c, s')
  {
    var key, n := KeyOf(c, s.phase[i].job), s.phase[i].ticket;
    assert Pending(c, s, i, key, n);
    forall j, k, m ensures Pending(c, s', j, k, m) ==> Pending(c, s, j, k, m) && j != i {
    }
    assert forall x <- s'.sends :: x in s.sends || x == Slotted(key, n, s.now);
    assert SlotOf(c, s, s.phase[i]) == s.slots[key][n];
    hide Pending;
    assert PendingApart(c, s') && Unsent(c, s') && SentOk(s');
    forall x, y | 0 <= x < y < |s'.sends| && s'.sends[x].Slotted? && s'.sends[y].Slotted?
      ensures s'.sends[x].key != s'.sends[y].key || s'.sends[x].ticket != s'.sends[y].ticket
    {
      if y == |s.sends| { assert s.sends[x] in s.sends; }
    }
    forall j | 0 <= j < |s'.phase| && Ticketed(s'.phase[j])
      ensures Issued(s', KeyOf(c, s'.phase[j].job), s'.phase[j].ticket)
      ensures !s'.phase[j].Waiting? ==> SlotOf(c, s', s'.phase[j]) <= s'.now
    {
      if j != i { assert s'.phase[j] == s.phase[j]; }
    }
  }

  /** A redirect takes no slot. */
  lemma RedirectTickets(c: Config, s: Sys, i: nat, key: string, s': Sys)
    requires TicketsOk(c, s) && i < |s.phase| && s.phase[i].Sending?
    requires s'.phase == s.phase[i := s.phase[i].(hops := s.phase[i].hops + 1)]
    requires s'.slots == s.slots && s'.now == s.now && s'.sends == s.sends + [Hop(key, s.now)]
    ensures TicketsOk(c, s')
  {
    forall j, k, m ensures Pending(c, s', j, k, m) ==> Pending(c, s, j, k, m) {
    }
    assert forall x <- s'.sends :: x in s.sends || x.Hop?;
    hide Pending;
    assert PendingApart(c, s') && Unsent(c, s') && SentOk(s') && SentApart(s');
    forall j | 0 <= j < |s'.phase| && Ticketed(s'.phase[j])
      ensures Issued(s', KeyOf(c, s'.phase[j].job), s'.phase[j].ticket)
      ensures !s'.phase[j].Waiting? ==> SlotOf(c, s', s'.phase[j]) <= s'.now
    {
      if j != i { assert s'.phase[j] == s.phase[j]; }
    }
  }

  lemma TickTickets(c: Config, s: Sys, t: int)
    requires TicketsOk(c, s) && s.now <= t
    ensures TicketsOk(c, s.(now := t))
  {
    var s' := s.(now := t);
    assert forall j, k, n :: Pending(c, s', j, k, n) ==> Pending(c, s, j, k, n);
    forall j | 0 <= j < |s.phase| && Ticketed(s.phase[j]) ensures SlotOf(c, s', s.phase[j]) == SlotOf(c, s, s.phase[j]) {
    }
    hide Pending, SlotOf;
    assert PendingApart(c, s') && Unsent(c, s') && SentOk(s') && SentApart(s');
  }

  lemma TicketsStep(c: Config, ts: seq<Target>, s: Sys, a: Act)
    requires Enabled(c, ts, s, a) && TicketsOk(c, s)
    ensures TicketsOk(c, Next(c, ts, s, a))
  {
    hide TicketsOk, After, First;
    var s' := Next(c, ts, s, a);
    match a {
      case Tick(t) => TickTickets(c, s, t);
      case Cancel => CancelTickets(c, s);
      case Reserve(i) => ReserveTickets(c, s, i, s');
      case Acquire(i) => AcquireTickets(c, s, i, s');
      case Redirect(i, uri) => RedirectTickets(c, s, i, c.hostKey(uri), s');
      case Begin(i) =>
        NotTicketed(c, ts[i], Job(Get, "", None), GAVE_UP);
        QuietTickets(c, s, i, s'.phase[i], s');
      case GiveUp(i, refused) =>
        if !s.phase[i].Fresh? { NotTicketed(c, ts[i], s.phase[i].job, GAVE_UP); }
        QuietTickets(c, s, i, s'.phase[i], s');
      case Wake(i) => QuietTickets(c, s, i, s'.phase[i], s');
      case Finish(i, o) =>
        NotTicketed(c, ts[i], s.phase[i].job, Judge(s.phase[i].job.kind, o));
        QuietTickets(c, s, i, s'.phase[i], s');
    }
  }

  lemma CancelTickets(c: Config, s: Sys)
    requires TicketsOk(c, s)
    ensures TicketsOk(c, s.(cancelled := true))
  {
    TickTickets(c, s, s.now);
    var s' := s.(cancelled := true);
    assert forall j, k, n :: Pending(c, s', j, k, n) ==> Pending(c, s, j, k, n);
    forall j | 0 <= j < |s.phase| && Ticketed(s.phase[j]) ensures SlotOf(c, s', s.phase[j]) == SlotOf(c, s, s.phase[j]) {
    }
    hide Pending, SlotOf;
    assert PendingApart(c, s') && Unsent(c, s') && SentOk(s') && SentApart(s');
  }

  lemma NotTicketed(c: Config, t: Target, job: Job, reply: Reply)
    ensures !Ticketed(First(c, t)) && !Ticketed(After(c, t, job, reply))
  {
  }

  /** Every step keeps the invariant. */
  lemma StepKeeps(c: Config, ts: seq<Target>, s: Sys, a: Act)
    requires Enabled(c, ts, s, a) && Inv(c, ts, s)
    ensures Inv(c, ts, Next(c, ts, s, a))
  {
    hide SemOk, SlotsOk, TicketsOk, JobsOk, HopsOk, Next, Enabled;
    HopsStep(c, ts, s, a);
    SemStep(c, ts, s, a);
    SlotsStep(c, ts, s, a);
    TicketsStep(c, ts, s, a);
    JobsStep(c, ts, s, a);
  }

  /** The executor before its goroutines start, whatever its limiters have been
      used for before. */
  ghost predicate Init(c: Config, ts: seq<Target>, s: Sys) {
    && |s.phase| == |ts| && (forall i :: 0 <= i < |s.phase| ==> s.phase[i].Fresh?)
    && s.sem == 0 && s.sends == [] && SlotsOk(c, s)
  }

  lemma InitOk(c: Config, ts: seq<Target>, s: Sys)
    requires Init(c, ts, s)
    ensures Inv(c, ts, s)
  {
    assert Holders(s) == {};
    assert forall i, k, n :: !Pending(c, s, i, k, n);
    NoneSpare(c, s.phase);
  }

  lemma {:induction false} NoneSpare(c: Config, ps: seq<Phase>)
    requires forall i :: 0 <= i < |ps| ==> ps[i].Fresh?
    ensures Sum(Spares(c), ps) == 0
    decreases |ps|
  {
    if ps != [] { NoneSpare(c, ps[..|ps| - 1]); }
  }

  /** Slots j and k of one host are at least k - j intervals apart. */
  lemma {:induction false} SlotsApart(slots: seq<int>, interval: nat, j: nat, k: nat)
    requires Spaced(slots, interval) && j <= k < |slots|
    ensures slots[j] + (k - j) * interval <= slots[k]
    decreases k
  {
    if j < k {
      SlotsApart(slots, interval, j, k - 1);
      assert (k - j) * interval == (k - 1 - j) * interval + interval;
    }
  }

  /** In every reachable state at most maxInFlight exchanges are in flight, and
      two requests to one host that take slots were started on slots at least an
      interval apart, neither before its own. */
  lemma RateLimited(c: Config, ts: seq<Target>, s: Sys, x: nat, y: nat)
    requires Inv(c, ts, s) && x < |s.sends| && y < |s.sends| && x != y && s.sends[x].key == s.sends[y].key
    requires s.sends[x].Slotted? && s.sends[y].Slotted?
    ensures |Holders(s)| <= c.maxInFlight
    ensures var a, b := s.sends[x], s.sends[y];
      && Issued(s, a.key, a.ticket) && Issued(s, b.key, b.ticket)
      && var p, q := s.slots[a.key][a.ticket], s.slots[b.key][b.ticket];
         (p + c.interval <= q || q + c.interval <= p) && p <= a.start && q <= b.start
  {
    var a, b := s.sends[x], s.sends[y];
    assert a in s.sends && b in s.sends;
    assert x < y || y < x;
    var lo, hi := if a.ticket < b.ticket then a.ticket else b.ticket, if a.ticket < b.ticket then b.ticket else a.ticket;
    SlotsApart(s.slots[a.key], c.interval, lo, hi);
    AtLeastOne(hi - lo, c.interval);
  }

  lemma AtLeastOne(n: nat, interval: nat)
    requires 0 < n
    ensures interval <= n * interval
  {
  }

  lemma {:induction false} DistinctBelow(ns: set<nat>, bound: nat)
    requires forall n <- ns :: n < bound
    ensures |ns| <= bound
    decreases bound
  {
    if bound == 0 {
      assert ns == {};
    } else {
      DistinctBelow(ns - {bound - 1}, bound - 1);
      assert ns <= (ns - {bound - 1}) + {bound - 1};
      if bound - 1 !in ns { assert ns == ns - {bound - 1}; }
    }
  }

  ghost function Tickets(s: Sys, xs: set<nat>): set<nat>
    requires forall x <- xs :: x < |s.sends| && s.sends[x].Slotted?
  {
    set x | x in xs :: s.sends[x].ticket
  }

  lemma {:induction false} TicketsCount(s: Sys, xs: set<nat>)
    requires SentApart(s) && (forall x <- xs :: x < |s.sends| && s.sends[x].Slotted?)
    requires forall x, y :: x in xs && y in xs ==> s.sends[x].key == s.sends[y].key
    ensures |Tickets(s, xs)| == |xs|
    decreases |xs|
  {
    if xs != {} {
      var x :| x in xs;
      TicketsCount(s, xs - {x});
      forall y | y in xs - {x} ensures s.sends[y].ticket != s.sends[x].ticket {
        assert x < y || y < x;
      }
      hide SentApart;
      assert Tickets(s, xs) == Tickets(s, xs - {x}) + {s.sends[x].ticket};
      assert s.sends[x].ticket !in Tickets(s, xs - {x});
    }
  }

  /** Over time the rate holds whatever the bunching: of n requests to one
      host that take slots, the last starts at least n - 1 intervals after its first slot. */
  lemma LongRunRate(c: Config, ts: seq<Target>, s: Sys, key: string, xs: set<nat>) returns (x: nat)
    requires Inv(c, ts, s) && xs != {}
    requires forall x <- xs :: x < |s.sends| && s.sends[x].Slotted? && s.sends[x].key == key
    ensures x in xs && key in s.slots && s.slots[key] != []
    ensures s.slots[key][0] + (|xs| - 1) * c.interval <= s.sends[x].start
  {
    hide HopsOk, JobsOk, SemOk;
    TicketsCount(s, xs);
    if forall y <- xs :: s.sends[y].ticket < |xs| - 1 {
      DistinctBelow(Tickets(s, xs), |xs| - 1);
      assert false;
    }
    x :| x in xs && |xs| - 1 <= s.sends[x].ticket;
    assert s.sends[x] in s.sends;
    var n := s.sends[x].ticket;
    SlotsApart(s.slots[key], c.interval, 0, n);
    MoreIntervals(|xs| - 1, n, c.interval);
  }

  /** Redirects add to that at most the limit less one for each request that
      took a slot: to any hosts at all, in no time. */
  lemma HopsBounded(c: Config, ts: seq<Target>, s: Sys)
    requires Inv(c, ts, s)
    ensures |s.sends| <= (1 + HopsLeft(c, 0)) * (|s.sends| - Hops(s.sends))
  {
    var n := |s.sends| - Hops(s.sends);
    assert (1 + HopsLeft(c, 0)) * n == n + HopsLeft(c, 0) * n;
  }

  lemma MoreIntervals(a: nat, b: nat, interval: nat)
    requires a <= b
    ensures a * interval <= b * interval
  {
  }

  /** How many more steps a goroutine can take at most. */
  function Rank(c: Config, p: Phase): nat {
    var most := HopsLeft(c, 0);
    match p
    case Fresh => 9 + most
    case Ready(job) => (if job.kind == OneClick then 8 else 4) + most
    case Waiting(job, _) => (if job.kind == OneClick then 7 else 3) + most
    case Queueing(job, _) => (if job.kind == OneClick then 6 else 2) + most
    case Sending(job, _, _, hops) => if job.kind == OneClick then 5 + most else 1 + HopsLeft(c, hops)
    case Done(_) => 0
  }

  function Ranks(c: Config): Phase -> nat {
    (p: Phase) => Rank(c, p)
  }

  function Total(c: Config, ps: seq<Phase>): nat {
    Sum(Ranks(c), ps)
  }

  /** Every step of a goroutine is one of a bounded number. */
  lemma StepCounts(c: Config, ts: seq<Target>, s: Sys, a: Act)
    requires Enabled(c, ts, s, a) && OfGoroutine(a)
    ensures Total(c, Next(c, ts, s, a).phase) < Total(c, s.phase)
  {
    hide Rank, Sum, First, After, Judge;
    MovesOn(c, ts, s, a);
    RankDrops(c, ts, s, a);
    SumAt(Ranks(c), s.phase, a.i, Next(c, ts, s, a).phase[a.i]);
  }

  lemma RankDrops(c: Config, ts: seq<Target>, s: Sys, a: Act)
    requires Enabled(c, ts, s, a) && OfGoroutine(a)
    ensures a.i < |s.phase| == |Next(c, ts, s, a).phase|
    ensures Rank(c, Next(c, ts, s, a).phase[a.i]) < Rank(c, s.phase[a.i])
  {
  }

  /** No deadlock: while some goroutine is not done, one can take a step, if
      need be after waiting, however small the semaphore. */
  lemma NoDeadlock(c: Config, ts: seq<Target>, s: Sys) returns (t: int, a: Act)
    requires Inv(c, ts, s) && 0 < c.maxInFlight
    requires exists i :: 0 <= i < |s.phase| && !s.phase[i].Done?
    ensures s.now <= t && OfGoroutine(a) && Enabled(c, ts, s.(now := t), a)
  {
    t := s.now;
    var i :| 0 <= i < |s.phase| && !s.phase[i].Done?;
    match s.phase[i] {
      case Fresh => a := if s.cancelled then GiveUp(i, false) else Begin(i);
      case Ready(_) => a := GiveUp(i, true);
      case Waiting(_, _) =>
        a := Wake(i);
        t := if s.now < SlotOf(c, s, s.phase[i]) then SlotOf(c, s, s.phase[i]) else s.now;
        assert SlotOf(c, s.(now := t), s.phase[i]) == SlotOf(c, s, s.phase[i]);
      case Sending(_, _, _, _) =>
        assert i in Holders(s);
        a := Finish(i, NoAnswer);
      case Queueing(_, _) =>
        if j :| j in Holders(s) {
          a := Finish(j, NoAnswer);
        } else {
          assert Holders(s) == {};
          a := Acquire(i);
        }
    }
  }

  /** The executor. slots and sends record what its limiters have given out and
      what it has started; nothing depends on them. */
  class Executor {
    const c: Config
    var limiters: map<string, int>
    var sem: nat
    var slots: map<string, seq<int>>
    var sends: seq<Request>

    constructor (config: Config)
      ensures c == config && limiters == map[] && sem == 0 && slots == map[] && sends == []
    {
      c, limiters, sem, slots, sends := config, map[], 0, map[], [];
    }

    function State(now: int, cancelled: bool, phase: seq<Phase>): Sys
      reads this
    {
      Sys(now, cancelled, limiters, sem, phase, slots, sends)
    }

    /** The locked part of hostLimiter.wait: takes the next slot of a host,
        making its limiter first if there is none. */
    method ReserveSlot(key: string, now: int) returns (start: int, ticket: nat)
      modifies this`limiters, this`slots
      ensures start == NextSlot(old(State(now, false, [])), key) && ticket == |SlotsOf(old(State(now, false, [])), key)|
      ensures limiters == old(limiters)[key := start + c.interval]
      ensures slots == old(slots)[key := SlotsOf(old(State(now, false, [])), key) + [start]]
    {
      start := now;
      if key in limiters && now < limiters[key] { start := limiters[key]; }
      limiters := limiters[key := start + c.interval];
      var given := if key in slots then slots[key] else [];
      ticket, slots := |given|, slots[key := given + [start]];
    }

    /** One step of goroutine a.i. */
    method TakeStep(ts: seq<Target>, now: int, cancelled: bool, before: seq<Phase>, a: Act) returns (phase: seq<Phase>)
      requires OfGoroutine(a) && Enabled(c, ts, State(now, cancelled, before), a)
      modifies this
      ensures State(now, cancelled, phase) == Next(c, ts, old(State(now, cancelled, before)), a)
    {
      var p := before[a.i];
      match a {
        case Begin(i) => phase := before[i := First(c, ts[i])];
        case GiveUp(i, refused) => phase := before[i := GivenUp(c, ts[i], p, refused)];
        case Reserve(i) =>
          var start, ticket := ReserveSlot(KeyOf(c, p.job), now);
          phase := before[i := Waiting(p.job, ticket)];
        case Wake(i) => phase := before[i := Queueing(p.job, p.ticket)];
        case Acquire(i) =>
          sem, sends := sem + 1, sends + [Slotted(KeyOf(c, p.job), p.ticket, now)];
          phase := before[i := Sending(p.job, p.ticket, now, 0)];
        case Redirect(i, uri) =>
          sends := sends + [Hop(c.hostKey(uri), now)];
          phase := before[i := p.(hops := p.hops + 1)];
        case Finish(i, o) =>
          sem := sem - 1;
          phase := before[i := After(c, ts[i], p.job, Judge(p.job.kind, o))];
      }
    }

    /** Runs every target, its goroutines interleaved in any way: between any
        two steps any time may pass and the run may be cancelled. It ends, with
        the semaphore free and result i that of target i, which is what target i
        has earned by the answers heard; all requests ever started kept to the
        limits. */
    method Run(ts: seq<Target>) returns (results: seq<Result>, ghost heard: seq<seq<Heard>>, ghost stopped: bool)
      requires 0 < c.maxInFlight && sem == 0 && sends == [] && SlotsOk(c, State(0, false, []))
      modifies this
      ensures sem == 0 && SlotsOk(c, State(0, false, []))
      ensures |results| == |ts| == |heard| && forall i :: 0 <= i < |ts| ==> Earned(c, ts[i], results[i], heard[i], stopped)
      ensures exists now, cancelled, phase :: Inv(c, ts, State(now, cancelled, phase))
    {
      hide Inv, SlotsOk, Enabled, Next, ResultFor, Earned, HeardBy, ToldSoFar;
      var phase := seq(|ts|, i => Fresh);
      heard := seq(|ts|, i => []);
      var now: int, cancelled := *, false;
      SlotsAnyState(c, State(0, false, []), State(now, cancelled, phase));
      InitOk(c, ts, State(now, cancelled, phase));
      FreshTold(c, ts, phase, heard);
      while exists i :: 0 <= i < |phase| && !phase[i].Done?
        invariant |phase| == |ts| && Inv(c, ts, State(now, cancelled, phase)) && AllTold(c, ts, phase, heard, cancelled)
        decreases Total(c, phase)
      {
        ghost var s := State(now, cancelled, phase);
        var stop := *;
        cancelled := cancelled || stop;
        if stop { CancelKeeps(c, ts, s, heard); }
        ghost var t0, a0 := NoDeadlock(c, ts, State(now, cancelled, phase));
        assert State(now, cancelled, phase).(now := t0) == State(t0, cancelled, phase);
        var t: int, a :| now <= t && OfGoroutine(a) && Enabled(c, ts, State(t, cancelled, phase), a);
        WaitKeeps(c, ts, State(now, cancelled, phase), t);
        StepGoesOn(c, ts, State(t, cancelled, phase), a, heard);
        heard := HeardBy(State(t, cancelled, phase), heard, a);
        now := t;
        phase := TakeStep(ts, now, cancelled, phase, a);
      }
      AllDone(c, ts, State(now, cancelled, phase), heard);
      SlotsAnyState(c, State(now, cancelled, phase), State(0, false, []));
      results, stopped := seq(|ts|, i requires 0 <= i < |ts| => phase[i].res), cancelled;
    }
  }

  lemma SlotsAnyState(c: Config, s: Sys, s': Sys)
    requires Inv(c, [], s) || SlotsOk(c, s) || exists ts :: Inv(c, ts, s)
    requires s'.next == s.next && s'.slots == s.slots
    ensures SlotsOk(c, s')
  {
  }

  lemma CancelKeeps(c: Config, ts: seq<Target>, s: Sys, heard: seq<seq<Heard>>)
    requires Inv(c, ts, s) && AllTold(c, ts, s.phase, heard, s.cancelled)
    ensures Inv(c, ts, s.(cancelled := true)) && AllTold(c, ts, s.phase, heard, true)
  {
    StepKeeps(c, ts, s, Cancel);
    ToldStep(c, ts, s, Cancel, heard);
    hide Inv, AllTold;
  }

  lemma StepGoesOn(c: Config, ts: seq<Target>, s: Sys, a: Act, heard: seq<seq<Heard>>)
    requires OfGoroutine(a) && Enabled(c, ts, s, a) && Inv(c, ts, s) && AllTold(c, ts, s.phase, heard, s.cancelled)
    ensures var s' := Next(c, ts, s, a);
      && Inv(c, ts, s') && s'.now == s.now && s'.cancelled == s.cancelled
      && AllTold(c, ts, s'.phase, HeardBy(s, heard, a), s'.cancelled)
      && |s'.phase| == |s.phase| && Total(c, s'.phase) < Total(c, s.phase)
  {
    hide Inv, AllTold, Total, HeardBy, First, GivenUp, After, Judge;
    StepKeeps(c, ts, s, a);
    StepCounts(c, ts, s, a);
    StepSize(c, ts, s, a);
    ToldStep(c, ts, s, a, heard);
  }

  lemma WaitKeeps(c: Config, ts: seq<Target>, s: Sys, t: int)
    requires Inv(c, ts, s) && s.now <= t
    ensures Inv(c, ts, s.(now := t))
  {
    StepKeeps(c, ts, s, Tick(t));
  }

  lemma StepSize(c: Config, ts: seq<Target>, s: Sys, a: Act)
    requires Enabled(c, ts, s, a)
    ensures |Next(c, ts, s, a).phase| == |s.phase|
  {
  }

  lemma AllDone(c: Config, ts: seq<Target>, s: Sys, heard: seq<seq<Heard>>)
    requires Inv(c, ts, s) && AllTold(c, ts, s.phase, heard, s.cancelled)
    requires forall i :: 0 <= i < |s.phase| ==> s.phase[i].Done?
    ensures s.sem == 0 && |s.phase| == |ts|
    ensures forall i :: 0 <= i < |ts| ==> Earned(c, ts[i], s.phase[i].res, heard[i], s.cancelled)
  {
    hide Earned;
    assert Holders(s) == {};
  }

  lemma FreshTold(c: Config, ts: seq<Target>, phase: seq<Phase>, heard: seq<seq<Heard>>)
    requires phase == seq(|ts|, i => Fresh) && heard == seq(|ts|, i => [])
    ensures AllTold(c, ts, phase, heard, false)
  {
  }

  /** s is what the steps acts make of s0. */
  ghost predicate Reaches(c: Config, ts: seq<Target>, s0: Sys, acts: seq<Act>, s: Sys) {
    if acts == [] then s == s0
    else
      var a := acts[|acts| - 1];
      exists m :: Reaches(c, ts, s0, acts[..|acts| - 1], m) && Enabled(c, ts, m, a) && s == Next(c, ts, m, a)
  }

  lemma OneMore(c: Config, ts: seq<Target>, s0: Sys, acts: seq<Act>, s: Sys, a: Act, s': Sys) returns (more: seq<Act>)
    requires Reaches(c, ts, s0, acts, s) && Enabled(c, ts, s, a) && s' == Next(c, ts, s, a)
    ensures Reaches(c, ts, s0, more, s')
  {
    more := acts + [a];
    assert more[..|more| - 1] == acts && more[|more| - 1] == a;
    assert Reaches(c, ts, s0, more[..|more| - 1], s);
  }

  lemma {:induction false} ReachesKeeps(c: Config, ts: seq<Target>, s0: Sys, acts: seq<Act>, s: Sys)
    requires Init(c, ts, s0) && Reaches(c, ts, s0, acts, s)
    ensures Inv(c, ts, s)
    decreases |acts|
  {
    hide Inv, Enabled, Next;
    if acts == [] {
      InitOk(c, ts, s0);
    } else {
      var m :| Reaches(c, ts, s0, acts[..|acts| - 1], m) && Enabled(c, ts, m, acts[|acts| - 1])
        && s == Next(c, ts, m, acts[|acts| - 1]);
      ReachesKeeps(c, ts, s0, acts[..|acts| - 1], m);
      StepKeeps(c, ts, m, acts[|acts| - 1]);
    }
  }

  /** Requests to one host were started at least an interval apart. */
  ghost predicate Paced(c: Config, s: Sys) {
    forall x, y :: 0 <= x < y < |s.sends| && s.sends[x].key == s.sends[y].key ==>
      s.sends[x].start + c.interval <= s.sends[y].start || s.sends[y].start + c.interval <= s.sends[x].start
  }

  /** No two targets call for a request to the same host, and no one-click can
      fall back to a GET. */
  ghost predicate Solo(c: Config, ts: seq<Target>) {
    && (forall i, j :: 0 <= i < j < |ts| && First(c, ts[i]).Ready? && First(c, ts[j]).Ready? ==>
          KeyOf(c, First(c, ts[i]).job) != KeyOf(c, First(c, ts[j]).job))
    && (c.httpGet ==> forall i :: 0 <= i < |ts| && First(c, ts[i]).Ready? ==> First(c, ts[i]).job.kind != OneClick)
  }

  /** No request can be redirected: redirects are not followed, or no target
      calls for a GET. */
  ghost predicate Unhopped(c: Config, ts: seq<Target>) {
    c.redirects <= 1 || forall i :: 0 <= i < |ts| && First(c, ts[i]).Ready? ==> First(c, ts[i]).job.kind != Get
  }

  /** Then every goroutine makes the one request its target calls for, and no
      host is sent two. */
  ghost predicate Once(c: Config, ts: seq<Target>, s: Sys) {
    && |s.phase| == |ts|
    && (forall i :: 0 <= i < |ts| && HasJob(s.phase[i]) ==> First(c, ts[i]) == Ready(s.phase[i].job))
    && (forall x <- s.sends :: exists i :: SentFor(c, ts, s, i, x.key))
    && (forall x, y :: 0 <= x < y < |s.sends| ==> s.sends[x].key != s.sends[y].key)
  }

  predicate HasJob(p: Phase) {
    !p.Fresh? && !p.Done?
  }

  /** Goroutine i has started its target's request, to key. */
  ghost predicate SentFor(c: Config, ts: seq<Target>, s: Sys, i: nat, key: string) {
    && i < |ts| == |s.phase| && (s.phase[i].Sending? || s.phase[i].Done?)
    && First(c, ts[i]).Ready? && KeyOf(c, First(c, ts[i]).job) == key
  }

  lemma NoFallback(c: Config, ts: seq<Target>, i: nat, job: Job, reply: Reply)
    requires Solo(c, ts) && i < |ts| && First(c, ts[i]) == Ready(job)
    ensures After(c, ts[i], job, reply).Done?
  {
  }

  /** A goroutine that stays on its request or is done with it. */
  lemma OnceMoved(c: Config, ts: seq<Target>, s: Sys, s': Sys, i: nat)
    requires Once(c, ts, s) && i < |ts| && |s'.phase| == |ts| && s'.sends == s.sends
    requires forall j :: 0 <= j < |ts| && j != i ==> s'.phase[j] == s.phase[j]
    requires HasJob(s'.phase[i]) ==> First(c, ts[i]) == Ready(s'.phase[i].job)
    requires s.phase[i].Sending? || s.phase[i].Done? ==> s'.phase[i].Sending? || s'.phase[i].Done?
    ensures Once(c, ts, s')
  {
    forall x | x in s'.sends ensures exists j :: SentFor(c, ts, s', j, x.key) {
      var j: nat :| SentFor(c, ts, s, j, x.key);
      assert SentFor(c, ts, s', j, x.key);
    }
  }

  lemma OnceAcquired(c: Config, ts: seq<Target>, s: Sys, i: nat)
    requires Once(c, ts, s) && Solo(c, ts) && Enabled(c, ts, s, Acquire(i))
    ensures Once(c, ts, Next(c, ts, s, Acquire(i)))
  {
    var s' := Next(c, ts, s, Acquire(i));
    var key := KeyOf(c, s.phase[i].job);
    forall x | x in s.sends ensures x.key != key && exists j :: SentFor(c, ts, s', j, x.key) {
      var j: nat :| SentFor(c, ts, s, j, x.key);
      assert j != i && (j < i || i < j);
      assert SentFor(c, ts, s', j, x.key);
    }
    assert SentFor(c, ts, s', i, key);
  }

  lemma OnceStep(c: Config, ts: seq<Target>, s: Sys, a: Act)
    requires Once(c, ts, s) && Solo(c, ts) && Unhopped(c, ts) && Enabled(c, ts, s, a)
    ensures Once(c, ts, Next(c, ts, s, a))
  {
    var s' := Next(c, ts, s, a);
    match a {
      case Acquire(i) => OnceAcquired(c, ts, s, i);
      case Redirect(_, _) => assert false;
      case GiveUp(i, _) =>
        if !s.phase[i].Fresh? { NoFallback(c, ts, i, s.phase[i].job, GAVE_UP); }
        hide Once, First, After;
        OnceMoved(c, ts, s, s', i);
      case Finish(i, o) =>
        NoFallback(c, ts, i, s.phase[i].job, Judge(s.phase[i].job.kind, o));
        hide Once, First, After;
        OnceMoved(c, ts, s, s', i);
      case Begin(i) => OnceMoved(c, ts, s, s', i);
      case Reserve(i) => OnceMoved(c, ts, s, s', i);
      case Wake(i) => OnceMoved(c, ts, s, s', i);
      case _ =>
        forall x | x in s'.sends ensures exists j :: SentFor(c, ts, s', j, x.key) {
          var j: nat :| SentFor(c, ts, s, j, x.key);
          assert SentFor(c, ts, s', j, x.key);
        }
    }
  }

  lemma {:induction false} OnceAlways(c: Config, ts: seq<Target>, s0: Sys, acts: seq<Act>, s: Sys)
    requires Init(c, ts, s0) && Solo(c, ts) && Unhopped(c, ts) && Reaches(c, ts, s0, acts, s)
    ensures Once(c, ts, s) && Paced(c, s)
    decreases |acts|
  {
    if acts != [] {
      var m :| Reaches(c, ts, s0, acts[..|acts| - 1], m) && Enabled(c, ts, m, acts[|acts| - 1])
        && s == Next(c, ts, m, acts[|acts| - 1]);
      OnceAlways(c, ts, s0, acts[..|acts| - 1], m);
      hide Solo, Unhopped, Enabled, Next;
      OnceStep(c, ts, m, acts[|acts| - 1]);
    }
  }

  /** A run that was cancelled before it began sends nothing. */
  lemma {:induction false} CancelledSilent(c: Config, ts: seq<Target>, s0: Sys, acts: seq<Act>, s: Sys)
    requires Init(c, ts, s0) && s0.cancelled && Reaches(c, ts, s0, acts, s)
    ensures s.cancelled && s.sends == [] && |s.phase| == |ts|
    ensures forall i :: 0 <= i < |s.phase| ==> s.phase[i].Fresh? || s.phase[i].Done?
    decreases |acts|
  {
    if acts != [] {
      var m :| Reaches(c, ts, s0, acts[..|acts| - 1], m) && Enabled(c, ts, m, acts[|acts| - 1])
        && s == Next(c, ts, m, acts[|acts| - 1]);
      CancelledSilent(c, ts, s0, acts[..|acts| - 1], m);
      hide Reaches, Init;
      SilentStep(c, ts, m, acts[|acts| - 1]);
    }
  }

  lemma SilentStep(c: Config, ts: seq<Target>, s: Sys, a: Act)
    requires Enabled(c, ts, s, a) && s.cancelled && s.sends == []
    requires forall i :: 0 <= i < |s.phase| ==> s.phase[i].Fresh? || s.phase[i].Done?
    ensures var s' := Next(c, ts, s, a);
      && s'.cancelled && s'.sends == [] && |s'.phase| == |s.phase|
      && forall i :: 0 <= i < |s'.phase| ==> s'.phase[i].Fresh? || s'.phase[i].Done?
  {
  }

  /** Goroutine i waits for the semaphore at time t, and nothing else has changed
      but the limiter of its host. */
  ghost predicate Queued(c: Config, s: Sys, s': Sys, i: nat, t: int) {
    && i < |s.phase| && s.phase[i].Ready?
    && var job := s.phase[i].job;
       var key := KeyOf(c, job);
       && (exists n :: s'.phase == s.phase[i := Queueing(job, n)])
       && s'.now == t && !s'.cancelled && s'.sem == s.sem && s'.sends == s.sends
       && key in s'.next && s'.next[key] == NextSlot(s, key) + c.interval
  }

  /** A goroutine that is ready can come to wait for the semaphore at any time
      its slot has come by. */
  lemma Queue(c: Config, ts: seq<Target>, s0: Sys, acts: seq<Act>, s: Sys, i: nat, t: int) returns (more: seq<Act>, s': Sys)
    requires Reaches(c, ts, s0, acts, s) && i < |s.phase| == |ts| && s.phase[i].Ready? && !s.cancelled
    requires s.now <= t && NextSlot(s, KeyOf(c, s.phase[i].job)) <= t
    ensures Reaches(c, ts, s0, more, s') && Queued(c, s, s', i, t)
  {
    hide Reaches;
    var job := s.phase[i].job;
    var key := KeyOf(c, job);
    var n := |SlotsOf(s, key)|;
    var s1 := Next(c, ts, s, Reserve(i));
    more := OneMore(c, ts, s0, acts, s, Reserve(i), s1);
    var s2 := Next(c, ts, s1, Tick(t));
    more := OneMore(c, ts, s0, more, s1, Tick(t), s2);
    assert SlotOf(c, s2, s2.phase[i]) == NextSlot(s, key);
    s' := Next(c, ts, s2, Wake(i));
    more := OneMore(c, ts, s0, more, s2, Wake(i), s');
    assert s'.phase == s.phase[i := Queueing(job, n)];
  }

  /** Its request started and answered at once. */
  ghost predicate Served(c: Config, ts: seq<Target>, s: Sys, s': Sys, i: nat, o: Outcome) {
    && i < |s.phase| == |ts| && s.phase[i].Queueing?
    && var job := s.phase[i].job;
       && (exists n :: s'.sends == s.sends + [Slotted(KeyOf(c, job), n, s.now)])
       && s'.phase == s.phase[i := After(c, ts[i], job, Judge(job.kind, o))]
       && s'.now == s.now && s'.cancelled == s.cancelled && s'.sem == s.sem && s'.next == s.next
  }

  lemma Serve(c: Config, ts: seq<Target>, s0: Sys, acts: seq<Act>, s: Sys, i: nat, o: Outcome) returns (more: seq<Act>, s': Sys)
    requires Reaches(c, ts, s0, acts, s) && i < |s.phase| == |ts| && s.phase[i].Queueing? && s.sem < c.maxInFlight
    ensures Reaches(c, ts, s0, more, s') && Served(c, ts, s, s', i, o)
  {
    hide Reaches, After;
    var s1 := Next(c, ts, s, Acquire(i));
    more := OneMore(c, ts, s0, acts, s, Acquire(i), s1);
    s' := Next(c, ts, s1, Finish(i, o));
    more := OneMore(c, ts, s0, more, s1, Finish(i, o), s');
    assert s'.sends == s.sends + [Slotted(KeyOf(c, s.phase[i].job), s.phase[i].ticket, s.now)];
    assert s1.phase[i := s'.phase[i]] == s.phase[i := s'.phase[i]];
  }

  lemma Start(c: Config, ts: seq<Target>, s0: Sys, acts: seq<Act>, s: Sys, i: nat) returns (more: seq<Act>, s': Sys)
    requires Reaches(c, ts, s0, acts, s) && i < |s.phase| == |ts| && s.phase[i].Fresh? && !s.cancelled
    ensures Reaches(c, ts, s0, more, s') && s' == s.(phase := s.phase[i := First(c, ts[i])])
  {
    hide Reaches;
    s' := Next(c, ts, s, Begin(i));
    more := OneMore(c, ts, s0, acts, s, Begin(i), s');
  }

  function Later(a: int, b: int): int {
    if a < b then b else a
  }

  /** Two targets of one host: their requests can start at the same moment,
      whatever the interval, even with MaxInFlight 1. */
  lemma TwoBunch(c: Config, ts: seq<Target>, s0: Sys, i: nat, j: nat) returns (acts: seq<Act>, s: Sys)
    requires Init(c, ts, s0) && !s0.cancelled && 0 < c.maxInFlight && i < j < |ts|
    requires First(c, ts[i]).Ready? && First(c, ts[j]).Ready? && KeyOf(c, First(c, ts[i]).job) == KeyOf(c, First(c, ts[j]).job)
    ensures Reaches(c, ts, s0, acts, s) && |s.sends| == 2
    ensures s.sends[0].key == s.sends[1].key && s.sends[0].start == s.sends[1].start
  {
    acts, s := [], s0;
    assert Reaches(c, ts, s0, [], s0);
    hide Reaches, SlotsOk, After, First;
    acts, s := Start(c, ts, s0, acts, s, i);
    acts, s := Start(c, ts, s0, acts, s, j);
    acts, s := Queue(c, ts, s0, acts, s, i, NextSlot(s, KeyOf(c, s.phase[i].job)));
    acts, s := Queue(c, ts, s0, acts, s, j, Later(s.now, NextSlot(s, KeyOf(c, s.phase[j].job))));
    acts, s := Serve(c, ts, s0, acts, s, i, NoAnswer);
    acts, s := Serve(c, ts, s0, acts, s, j, NoAnswer);
  }

  /** One one-click that is redirected: its fallback can start at the same moment. */
  lemma FallbackBunches(c: Config, ts: seq<Target>, s0: Sys, i: nat) returns (acts: seq<Act>, s: Sys)
    requires Init(c, ts, s0) && !s0.cancelled && 0 < c.maxInFlight && i < |ts| && c.httpGet
    requires First(c, ts[i]).Ready? && First(c, ts[i]).job.kind == OneClick
    ensures Reaches(c, ts, s0, acts, s) && |s.sends| == 2
    ensures s.sends[0].key == s.sends[1].key && s.sends[0].start == s.sends[1].start
  {
    acts, s := [], s0;
    assert Reaches(c, ts, s0, [], s0);
    hide Reaches, SlotsOk;
    acts, s := Start(c, ts, s0, acts, s, i);
    acts, s := Queue(c, ts, s0, acts, s, i, NextSlot(s, KeyOf(c, s.phase[i].job)) + c.interval);
    acts, s := Serve(c, ts, s0, acts, s, i, Answer(302));
    acts, s := Queue(c, ts, s0, acts, s, i, s.now);
    acts, s := Serve(c, ts, s0, acts, s, i, NoAnswer);
  }

  /** One GET that is redirected to its own host: the hop can start at the same
      moment, taking no slot. */
  lemma RedirectBunches(c: Config, ts: seq<Target>, s0: Sys, i: nat) returns (acts: seq<Act>, s: Sys)
    requires Init(c, ts, s0) && !s0.cancelled && 0 < c.maxInFlight && i < |ts| && 1 < c.redirects
    requires First(c, ts[i]).Ready? && First(c, ts[i]).job.kind == Get
    ensures Reaches(c, ts, s0, acts, s) && |s.sends| == 2 && s.sends[1].Hop?
    ensures s.sends[0].key == s.sends[1].key && s.sends[0].start == s.sends[1].start
  {
    acts, s := [], s0;
    assert Reaches(c, ts, s0, [], s0);
    hide Reaches, SlotsOk;
    acts, s := Start(c, ts, s0, acts, s, i);
    acts, s := Queue(c, ts, s0, acts, s, i, NextSlot(s, KeyOf(c, s.phase[i].job)));
    var s1 := Next(c, ts, s, Acquire(i));
    acts := OneMore(c, ts, s0, acts, s, Acquire(i), s1);
    var again := Redirect(i, s.phase[i].job.uri);
    s := Next(c, ts, s1, again);
    acts := OneMore(c, ts, s0, acts, s1, again, s);
  }

  /** Whether every run keeps the requests to each host an interval apart: if and
      only if the interval is nothing, the run is cancelled before it begins, or
      there is one request for each target, each to a host of its own. */
  lemma PacedExactly(c: Config, ts: seq<Target>, s0: Sys)
    requires Init(c, ts, s0) && 0 < c.maxInFlight
    ensures (forall acts, s :: Reaches(c, ts, s0, acts, s) ==> Paced(c, s)) <==>
            c.interval == 0 || s0.cancelled || (Solo(c, ts) && Unhopped(c, ts))
  {
    if c.interval == 0 || s0.cancelled || (Solo(c, ts) && Unhopped(c, ts)) {
      forall acts, s | Reaches(c, ts, s0, acts, s) ensures Paced(c, s) {
        if s0.cancelled {
          CancelledSilent(c, ts, s0, acts, s);
        } else if c.interval != 0 {
          OnceAlways(c, ts, s0, acts, s);
        }
      }
    } else {
      var acts, s := Bunch(c, ts, s0);
    }
  }

  lemma Bunch(c: Config, ts: seq<Target>, s0: Sys) returns (acts: seq<Act>, s: Sys)
    requires Init(c, ts, s0) && !s0.cancelled && 0 < c.maxInFlight && 0 < c.interval
    requires !Solo(c, ts) || !Unhopped(c, ts)
    ensures Reaches(c, ts, s0, acts, s) && !Paced(c, s)
  {
    hide Reaches;
    if i, j :| 0 <= i < j < |ts| && First(c, ts[i]).Ready? && First(c, ts[j]).Ready?
               && KeyOf(c, First(c, ts[i]).job) == KeyOf(c, First(c, ts[j]).job) {
      acts, s := TwoBunch(c, ts, s0, i, j);
    } else if !Unhopped(c, ts) {
      var i :| 0 <= i < |ts| && First(c, ts[i]).Ready? && First(c, ts[i]).job.kind == Get;
      acts, s := RedirectBunches(c, ts, s0, i);
    } else {
      var i :| 0 <= i < |ts| && First(c, ts[i]).Ready? && First(c, ts[i]).job.kind == OneClick;
      acts, s := FallbackBunches(c, ts, s0, i);
    }
    assert s.sends[0].key == s.sends[1].key;
  }
}
