/**
 * What every reachable state of the session satisfies. Each clause is a predicate
 * of only the parts of the state it speaks about.
 */
module SessionInvariants {
  import opened Basics
  import opened Protocol
  import opened SessionSpec

  // ------------------------------------------------------ the honest server

  /** What a subscription's query amounts to at a cursor. */
  datatype Outcome = OutcomeValue(value: Payload) | OutcomeError(error: Payload) | OutcomeDenied(denial: Error)

  /**
   * An honest server has one outcome for each subscription at each cursor; of an
   * arbitrary one nothing is known.
   */
  datatype Truth = HonestServer(outcome: (nat, Cursor) -> Outcome) | ArbitraryServer

  /** An honest transition reports the outcome at its cursor; a checkpoint keeps the outcome. */
  predicate HonestTransition(truth: Truth, id: nat, t: Transition) {
    truth.HonestServer? ==>
      match t
      case Reset(_, to, value) => truth.outcome(id, to) == OutcomeValue(value)
      case Update(_, to, value) => truth.outcome(id, to) == OutcomeValue(value)
      case ApplicationError(_, to, error) => truth.outcome(id, to) == OutcomeError(error)
      case Revoked(_, to, denial) => truth.outcome(id, to) == OutcomeDenied(denial)
      case Checkpoint(source, to) => truth.outcome(id, source) == truth.outcome(id, to)
      case Resume(_, _) => true
  }

  predicate Honest(truth: Truth, e: Event) {
    e.Incoming? && e.frame.Deliver? ==> HonestTransition(truth, e.frame.id, e.frame.transition)
  }

  /** The last outcome a subscription's callbacks reported, if any. */
  function LastOutcome(ds: seq<Delivery>): Option<Outcome> {
    if ds == [] then None
    else
      match ds[|ds| - 1]
      case Fresh(value) => Some(OutcomeValue(value))
      case Refused(error) => Some(OutcomeError(error))
      case Denied(denial) => Some(OutcomeDenied(denial))
      case _ => LastOutcome(ds[..|ds| - 1])
  }

  /**
   * What may follow some callbacks: a confirmation, an application error or a denial
   * only after an outcome, and a denial only for a reason of access.
   */
  predicate MayFollow(ds: seq<Delivery>, d: Delivery) {
    && (d.Confirmed? || d.Refused? || d.Denied? ==> LastOutcome(ds).Some?)
    && (d.Denied? ==> IsAuthCode(d.outcome.code))
  }

  predicate Anchored(ds: seq<Delivery>) {
    forall i | 0 <= i < |ds| :: MayFollow(ds[..i], ds[i])
  }

  /** The last outcome a live query subscription delivered is the server's at the cursor it holds. */
  predicate TruthAt(truth: Truth, id: nat, cursor: Option<Cursor>, last: Option<Outcome>) {
    match cursor
    case None => last.None?
    case Some(c) => last.Some? && (truth.HonestServer? ==> last.value == truth.outcome(id, c))
  }

  ghost predicate Truthful(subs: map<nat, Subscription>, delivered: map<nat, seq<Delivery>>, truth: Truth) {
    && (forall id | id in delivered :: Anchored(delivered[id]))
    && (forall id | id in subs && subs[id].stream.Outcomes? ::
          TruthAt(truth, id, subs[id].stream.cursor, LastOutcome(DeliveredTo(delivered, id))))
  }

  /** Between resets and revocations the cursor strictly advances on one stream. */
  predicate Increasing(hs: seq<Held>) {
    forall i | 0 <= i < |hs| && !hs[i].restarted :: 0 < i && Advances(hs[i - 1].cursor, hs[i].cursor)
  }

  ghost predicate Chained(subs: map<nat, Subscription>, held: map<nat, seq<Held>>) {
    && (forall id | id in held :: Increasing(held[id]))
    && (forall id | id in subs && subs[id].stream.Outcomes? ::
          var hs := CursorsOf(held, id);
          subs[id].stream.cursor == if hs == [] then None else Some(hs[|hs| - 1].cursor))
  }

  // --------------------------------------------------------- read your writes

  /**
   * What a mutation's receipt obliges the client to: the version, the answer, the
   * registered subscriptions it named, and how long the history of each then was.
   */
  datatype Promise = Promise(version: nat, answer: Answer, registered: set<nat>, marks: map<nat, nat>)

  function MarkOf(p: Promise, id: nat): nat {
    if id in p.marks then p.marks[id] else 0
  }

  /** A cursor at or past the version was held when the history had this length, or later. */
  predicate ReachedSince(hs: seq<Held>, mark: nat, version: nat) {
    exists i :: 0 <= i < |hs| && mark <= i + 1 && hs[i].cursor.commitVersion >= version
  }

  /** A subscription is gone, or has reached the promised version since the receipt. */
  ghost predicate Past(subs: map<nat, Subscription>, held: map<nat, seq<Held>>, id: nat, p: Promise) {
    id !in subs || ReachedSince(CursorsOf(held, id), MarkOf(p, id), p.version)
  }

  /** A subscription is live, behind the promised version, and has not reached it since the receipt. */
  ghost predicate Waiting(subs: map<nat, Subscription>, held: map<nat, seq<Held>>, id: nat, p: Promise) {
    id in subs && Behind(subs[id], p.version) && !ReachedSince(CursorsOf(held, id), MarkOf(p, id), p.version)
  }

  /** All but the last cursor. */
  function Earlier(hs: seq<Held>): seq<Held> {
    if hs == [] then [] else hs[..|hs| - 1]
  }

  /** Waiting but for its last move, about which the mutations are still to be told. */
  ghost predicate WaitingTillNow(subs: map<nat, Subscription>, held: map<nat, seq<Held>>, id: nat, p: Promise) {
    id in subs ==> !ReachedSince(Earlier(CursorsOf(held, id)), MarkOf(p, id), p.version)
  }

  /**
   * What the invariants are relative to: the server's outcomes, the subscriptions
   * being let go, the receipts received, a connection that has been left, and the
   * time of the event being handled.
   */
  datatype World =
    World(truth: Truth, leaving: set<nat>, promised: map<nat, Promise>, retired: Option<nat>, now: nat)

  /**
   * Once its receipt has come a mutation waits, for exactly the subscriptions the
   * receipt obliges it to. In the middle of an operation a subscription may be `leaving`: it is gone
   * or has moved on, and its mutations are about to be told.
   */
  ghost predicate PledgeHolds(subs: map<nat, Subscription>, held: map<nat, seq<Held>>, w: World, id: nat, r: Request) {
    && (id in w.promised <==> r.pledge.Some?)
    && (r.pledge.Some? ==>
          && r.kind.Mutation?
          && WaitsFor(subs, held, w.leaving, r.pledge.value, w.promised[id]))
  }

  ghost predicate WaitsFor(subs: map<nat, Subscription>, held: map<nat, seq<Held>>, leaving: set<nat>,
                           q: Pledge, p: Promise) {
    && Convergence(q) == Kept(p)
    && q.obligations != {}
    && q.obligations <= q.registered
    && (forall k | k in q.registered :: MarkOf(p, k) <= |CursorsOf(held, k)|)
    && (forall k | k in q.obligations ::
          if k in leaving then WaitingTillNow(subs, held, k, p) else Waiting(subs, held, k, p))
    && (forall k | k in q.registered - q.obligations :: Past(subs, held, k, p))
  }

  /** How a promise is kept. */
  function Kept(p: Promise): Settlement {
    Converged(p.answer, p.version, p.registered)
  }

  /** A mutation's answer is only ever given as its receipt was kept. */
  ghost predicate ConvergedHolds(subs: map<nat, Subscription>, held: map<nat, seq<Held>>,
                                 promised: map<nat, Promise>, id: nat, d: Settled) {
    && (d.settlement.Answered? ==> !d.kind.Mutation?)
    && (d.settlement.Converged? ==>
          && d.kind.Mutation?
          && id in promised
          && d.settlement == Kept(promised[id])
          && (forall k | k in promised[id].registered :: Past(subs, held, k, promised[id])))
  }

  ghost predicate Converges(subs: map<nat, Subscription>, pending: map<nat, Request>,
                            settled: map<nat, Settled>, held: map<nat, seq<Held>>, w: World) {
    && (forall id | id in pending :: PledgeHolds(subs, held, w, id, pending[id]))
    && (forall id | id in settled :: ConvergedHolds(subs, held, w.promised, id, settled[id]))
  }

  // ------------------------------------------------------------ conservation

  predicate SubSized(config: Config, id: nat, sub: Subscription) {
    && sub.frame == SubscribeFrame(id, if sub.stream.Outcomes? then sub.stream.cursor else None)
    && config.measure(sub.frame) == Some(sub.bytes)
  }

  /** The reservation counters are exactly what is outstanding, and within the limits. */
  ghost predicate Books(config: Config, subs: map<nat, Subscription>, pending: map<nat, Request>,
                        others: map<nat, nat>, items: int, bytes: int) {
    && items == |subs| + |pending| + |others|
    && bytes == Total(SubBytes(subs)) + Total(RequestBytes(pending)) + Total(others)
    && items <= config.maxItems
    && bytes <= config.maxBytes
    && (forall id | id in subs :: SubSized(config, id, subs[id]))
    && (forall id | id in pending :: config.measure(Call(id, pending[id].kind)) == Some(pending[id].bytes))
  }

  // -------------------------------------------------------- identity of work

  /** Every issued request is pending or settled, never both; ids are never reused. */
  ghost predicate Ledgered(nextId: nat, subs: map<nat, Subscription>, pending: map<nat, Request>,
                           settled: map<nat, Settled>, issued: set<nat>,
                           delivered: map<nat, seq<Delivery>>, held: map<nat, seq<Held>>) {
    && pending.Keys !! settled.Keys
    && issued == pending.Keys + settled.Keys
    && subs.Keys !! issued
    && (forall id | id in issued || id in subs || id in delivered || id in held :: id < nextId)
    && (forall id, k | id in pending && pending[id].pledge.Some? && k in pending[id].pledge.value.registered ::
          k < nextId)
    && (forall id, k | id in settled && settled[id].settlement.Converged? && k in settled[id].settlement.registered ::
          k < nextId)
  }

  // -------------------------------------------------------------- in flight

  /** The connections on which a request's frame was transmitted. */
  function Transmissions(wire: seq<Transmission>, id: nat): seq<nat> {
    if wire == [] then []
    else
      var last := wire[|wire| - 1];
      var before := Transmissions(wire[..|wire| - 1], id);
      if last.frame.Call? && last.frame.id == id then before + [last.generation] else before
  }

  predicate LocalCause(c: Cause) {
    c.Deadline? || c.ClientClosed? || c.Suspension? || c.Canceled? || c.ConnectionLost?
  }

  /** An ending that claims the work did not run. */
  predicate ClaimsNotRun(code: Code) {
    !code.Indeterminate? && !code.ConvergenceUnavailable?
  }

  /** No transmitted mutation or procedure is ended locally as certainly not run. */
  ghost predicate EndingHonest(wire: seq<Transmission>, id: nat, d: Settled) {
    && (d.kind.Procedure? ==> |Transmissions(wire, id)| <= 1)
    && (Transmissions(wire, id) != [] && !d.kind.Query? && d.settlement.Rejected? && LocalCause(d.settlement.cause) ==>
          !ClaimsNotRun(d.settlement.code))
  }

  /** A transmitted procedure is still on the connection it was sent on, and expires before any presentation. */
  ghost predicate RequestFlight(wire: seq<Transmission>, live: bool, generation: nat, attempt: Option<Attempt>,
                                id: nat, r: Request) {
    Transmissions(wire, id) != [] ==>
      && r.sent.Some?
      && (r.kind.Procedure? ==>
            && |Transmissions(wire, id)| == 1
            && live && r.sent == Some(generation)
            && (attempt.Some? ==>
                  && r.expiresAt <= attempt.value.expiresAt
                  && (attempt.value.armed.Some? ==> r.armed < attempt.value.armed.value)))
  }

  predicate RequestTimer(config: Config, now: nat, arms: nat, r: Request) {
    && r.armed < arms
    && (r.kind.Procedure? ==> r.expiresAt <= now + config.maxQueryAge)
  }

  ghost predicate Timers(config: Config, now: nat, arms: nat, pending: map<nat, Request>) {
    forall id | id in pending :: RequestTimer(config, now, arms, pending[id])
  }

  ghost predicate Flight(wire: seq<Transmission>, live: bool, generation: nat, attempt: Option<Attempt>,
                         pending: map<nat, Request>) {
    forall id | id in pending :: RequestFlight(wire, live, generation, attempt, id, pending[id])
  }

  /** A frame put on this connection is on its wire. */
  ghost predicate RequestCarried(wire: seq<Transmission>, socket: bool, generation: nat, id: nat, r: Request) {
    r.sent.Some? ==>
      && r.sent.value <= generation
      && (socket && r.sent.value == generation ==> Transmission(generation, Call(id, r.kind)) in wire)
  }

  predicate SubCarried(wire: seq<Transmission>, socket: bool, generation: nat, id: nat, sub: Subscription) {
    sub.sent.Some? ==>
      && sub.sent.value <= generation
      && (socket && sub.sent.value == generation ==>
            exists i :: 0 <= i < |wire| && wire[i].generation == generation && wire[i].frame.SubscribeFrame?
                        && wire[i].frame.id == id)
  }

  /** What is marked as put on the current connection is on its wire. */
  ghost predicate Carried(wire: seq<Transmission>, socket: bool, generation: nat,
                          subs: map<nat, Subscription>, pending: map<nat, Request>) {
    && (forall id | id in pending :: RequestCarried(wire, socket, generation, id, pending[id]))
    && (forall id | id in subs :: SubCarried(wire, socket, generation, id, subs[id]))
  }

  ghost predicate Endings(wire: seq<Transmission>, settled: map<nat, Settled>, issued: set<nat>) {
    && (forall id | id in settled :: EndingHonest(wire, id, settled[id]))
    && (forall id | Transmissions(wire, id) != [] :: id in issued)
  }

  // -------------------------------------------------------------- connection

  function Dials(admissions: seq<Admission>): nat {
    if admissions == [] then 0
    else Dials(admissions[..|admissions| - 1]) + if admissions[|admissions| - 1].Dialed? then 1 else 0
  }

  /** Every connection was dialed, at or after every Retry-After deadline seen before. */
  predicate Admitted(admissions: seq<Admission>, notBefore: nat, generation: nat, now: nat) {
    && generation == Dials(admissions)
    && (forall i | 0 <= i < |admissions| && admissions[i].Dialed? :: admissions[i].time <= now)
    && (forall i | 0 <= i < |admissions| && admissions[i].NotBefore? :: admissions[i].time <= notBefore)
    && (forall i, j | 0 <= i < j < |admissions| && admissions[i].NotBefore? && admissions[j].Dialed? ::
          admissions[i].time <= admissions[j].time)
  }

  /** Nothing may be dialed. */
  predicate Halted(s: State) {
    s.closed || s.failed || s.blocked || s.suspended
  }

  ghost predicate Linked(s: State) {
    && (Halted(s) ==> !s.socket)
    && (!s.socket ==> !s.open && !s.ready)
    && (s.socket ==> s.reconnect.None?)
    && (s.closed || s.failed || s.suspended ==> s.reconnect.None?)
    && (!Halted(s) ==> s.socket || s.reconnect.Some?)
    && (s.resuming && !s.closed ==> s.socket && !s.ready)
  }

  ghost predicate Standing(s: State) {
    && (s.closed || s.failed ==> s.pending == map[] && s.subs == map[])
    && (s.closed || s.failed || s.blocked ==> s.attempt.None?)
    && (s.attempt.Some? ==> s.attempt.value.id < s.nextId && s.attempt.value.id !in s.log.issued + s.subs.Keys)
    && (s.suspended ==> forall id | id in s.pending :: !s.pending[id].kind.Procedure?)
    && (s.suspended && s.attempt.Some? ==> s.attempt.value.armed.None?)
  }

  /** A connection that has been left is not the current one. */
  predicate LeftBehind(retired: Option<nat>, socket: bool, generation: nat) {
    retired.Some? ==> retired.value <= generation && !(socket && generation == retired.value)
  }

  /** Everything but the connection flags. */
  ghost predicate Data(s: State, w: World) {
    && Books(s.config, s.subs, s.pending, s.others, s.items, s.bytes)
    && Ledgered(s.nextId, s.subs, s.pending, s.log.settled, s.log.issued, s.log.delivered, s.log.held)
    && Truthful(s.subs, s.log.delivered, w.truth)
    && Chained(s.subs, s.log.held)
    && Converges(s.subs, s.pending, s.log.settled, s.log.held, w)
    && Timers(s.config, s.env.now, s.arms, s.pending)
    && Flight(s.log.wire, s.socket && s.ready, s.generation, s.attempt, s.pending)
    && Carried(s.log.wire, s.socket, s.generation, s.subs, s.pending)
    && Endings(s.log.wire, s.log.settled, s.log.issued)
    && Admitted(s.log.admissions, s.notBefore, s.generation, s.env.now)
    && LeftBehind(w.retired, s.socket, s.generation)
    && s.env.now == w.now
  }

  /** The record of a run only grows: no ending is ever changed. */
  ghost predicate Grows(a: Log, b: Log) {
    && (forall id | id in a.settled :: id in b.settled && b.settled[id] == a.settled[id])
    && a.issued <= b.issued
    && a.wire <= b.wire
    && a.admissions <= b.admissions
    && (forall id | id in a.delivered :: id in b.delivered && a.delivered[id] <= b.delivered[id])
  }

  /** A callback that says nothing about what a query amounts to. */
  predicate Aside(d: Delivery) {
    d.Trouble? || d.Happened?
  }

  ghost predicate Muted(a: Log, b: Log) {
    forall id, i | |DeliveredTo(a.delivered, id)| <= i < |DeliveredTo(b.delivered, id)| ::
      Aside(DeliveredTo(b.delivered, id)[i])
  }

  /** An ending that takes an answer or an error of the server. */
  predicate FromServer(how: Settlement) {
    how.Answered? || (how.Rejected? && how.cause.ServerError?)
  }

  ghost predicate Unanswered(a: Log, b: Log) {
    forall id | id in b.settled && id !in a.settled :: !FromServer(b.settled[id].settlement)
  }

  ghost predicate Resolves(a: Log, b: Log) {
    Grows(a, b) && Muted(a, b)
  }

  /** The record grows, no query has been reported on, and no request answered. */
  ghost predicate Extends(a: Log, b: Log) {
    Grows(a, b) && Muted(a, b) && Unanswered(a, b)
  }

  /** The record grows, queries reported on are still followed, and no request is answered. */
  ghost predicate Tells(a: Log, t: State) {
    Grows(a, t.log) && Voiced(a, t) && Unanswered(a, t.log)
  }

  /** A query that has been reported on since is still followed. */
  ghost predicate Voiced(a: Log, t: State) {
    forall id, i | |DeliveredTo(a.delivered, id)| <= i < |DeliveredTo(t.log.delivered, id)| &&
                   !Aside(DeliveredTo(t.log.delivered, id)[i]) ::
      id in t.subs && t.subs[id].stream.Outcomes?
  }

  ghost predicate Inv(s: State, w: World) {
    Data(s, w) && Linked(s) && Standing(s)
  }
}
