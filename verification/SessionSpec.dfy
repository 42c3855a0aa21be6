/**
 * The client session as a state machine on values: one function per operation
 * of the client object. Maps keyed by protocol id iterate in ascending id, which
 * is their insertion order because ids are handed out once and increasing.
 * Loops whose order cannot be observed are stated at once, over the whole map.
 */
module SessionSpec {
  import opened Basics
  import opened Protocol

  /** `measure` is the encoded size of a frame, or `None` when it cannot be encoded. */
  datatype Config = Config(
    session: string,
    maxItems: nat, maxBytes: nat, maxFrameBytes: nat,
    maxQueryAge: nat, maxMutationAge: nat, baseDelay: nat,
    measure: ClientFrame -> Option<nat>)

  /**
   * What the platform decides during one event: the clock, how many sends succeed
   * before one throws, whether a socket can be created, and the drawn retry delay
   * (`None` when the random source is invalid).
   */
  datatype Env = Env(now: nat, sends: nat, dial: bool, delay: Option<nat>)

  /** What a subscription follows: a live query's outcomes, or a live event stream. */
  datatype Stream =
    | Outcomes(cursor: Option<Cursor>, resetRequested: bool)
    | Events(at: Option<EventCursor>)

  /** `sent` is the connection its frame was last put on; `waiting` is a pending retry. */
  datatype Subscription = Subscription(
    frame: ClientFrame, bytes: nat, sent: Option<nat>, waiting: bool, stream: Stream)

  /** A mutation's receipt with the registered subscriptions it named and those still behind. */
  datatype Pledge = Pledge(version: nat, answer: Answer, registered: set<nat>, obligations: set<nat>)

  datatype Request = Request(
    kind: Kind, bytes: nat, expiresAt: nat, armed: nat, requestId: string,
    sent: Option<nat>, pledge: Option<Pledge>)

  /** A credential presentation; `armed` is its timer, paused while suspended. */
  datatype Attempt = Attempt(id: nat, credential: Credential, expiresAt: nat, armed: Option<nat>)

  datatype Cause = Deadline | ClientClosed | Suspension | Canceled | ConnectionLost
                 | ServerError | AuthenticationBlocked | PermanentFailure

  datatype Settlement =
    | Answered(answer: Answer)
    | Converged(answer: Answer, version: nat, registered: set<nat>)
    | Rejected(cause: Cause, code: Code)

  datatype Settled = Settled(kind: Kind, settlement: Settlement)

  /** One callback made for a subscription. */
  datatype Delivery =
    | Fresh(value: Payload) | Refused(error: Payload) | Denied(outcome: Error)
    | Confirmed | Trouble(problem: Error) | Happened(event: LiveEvent)

  /** A cursor a query subscription took, and whether a reset or revocation put it there. */
  datatype Held = Held(cursor: Cursor, restarted: bool)

  datatype Transmission = Transmission(generation: nat, frame: ClientFrame)

  datatype Admission = NotBefore(time: nat) | Dialed(time: nat)

  /** What has happened so far, kept for stating properties of whole runs. */
  datatype Log = Log(
    delivered: map<nat, seq<Delivery>>,
    held: map<nat, seq<Held>>,
    settled: map<nat, Settled>,
    issued: set<nat>,
    wire: seq<Transmission>,
    admissions: seq<Admission>)

  datatype State = State(
    config: Config, env: Env,
    socket: bool, open: bool, ready: bool, generation: nat,
    closed: bool, failed: bool, blocked: bool, suspended: bool, resuming: bool, everReady: bool,
    reconnect: Option<nat>, notBefore: nat,
    nextId: nat, arms: nat,
    credential: Credential, hello: Option<Credential>, attempt: Option<Attempt>,
    subs: map<nat, Subscription>, pending: map<nat, Request>,
    items: int, bytes: int, others: map<nat, nat>,
    log: Log)

  // ---------------------------------------------------------------- settling

  ghost function RequestBytes(m: map<nat, Request>): map<nat, nat> {
    map id | id in m :: m[id].bytes
  }

  ghost function SubBytes(m: map<nat, Subscription>): map<nat, nat> {
    map id | id in m :: m[id].bytes
  }

  /** Take requests out of the pending map, release what they reserved, record how each ended. */
  ghost function Settle(s: State, done: map<nat, Settlement>): State
    requires done.Keys <= s.pending.Keys
  {
    s.(pending := s.pending - done.Keys,
       items := s.items - |done.Keys|,
       bytes := s.bytes - Total(At(RequestBytes(s.pending), done.Keys)),
       log := s.log.(settled := s.log.settled + Ended(s.pending, done)))
  }

  ghost function Ended(pending: map<nat, Request>, done: map<nat, Settlement>): map<nat, Settled>
    requires done.Keys <= pending.Keys
  {
    map id | id in done :: Settled(pending[id].kind, done[id])
  }

  /** Finish one request, unless it has already been finished. */
  ghost function Finish(s: State, id: nat, how: Settlement): State {
    if id in s.pending then Settle(s, map[id := how]) else s
  }

  ghost function SettleAll(s: State, cause: Cause, code: Code): State {
    Settle(s, map id | id in s.pending :: Rejected(cause, code))
  }

  // ------------------------------------------------- callbacks and connection

  /** What a subscription's callbacks have said. */
  ghost function DeliveredTo(delivered: map<nat, seq<Delivery>>, id: nat): seq<Delivery> {
    if id in delivered then delivered[id] else []
  }

  ghost function Delivered(log: Log, id: nat): seq<Delivery> {
    DeliveredTo(log.delivered, id)
  }

  /** The cursors a subscription has held. */
  ghost function CursorsOf(held: map<nat, seq<Held>>, id: nat): seq<Held> {
    if id in held then held[id] else []
  }

  ghost function HeldBy(log: Log, id: nat): seq<Held> {
    CursorsOf(log.held, id)
  }

  ghost function Notify(s: State, id: nat, d: Delivery): State {
    s.(log := s.log.(delivered := s.log.delivered[id := Delivered(s.log, id) + [d]]))
  }

  ghost function NotifyAll(s: State, d: Delivery): State {
    s.(log := s.log.(delivered :=
      s.log.delivered + map id | id in s.subs :: Delivered(s.log, id) + [d]))
  }

  /** Live events are never replayed: without a connection their cursors are forgotten. */
  ghost function ForgetEvents(subs: map<nat, Subscription>): map<nat, Subscription> {
    map id | id in subs :: if subs[id].stream.Events? then subs[id].(stream := Events(None)) else subs[id]
  }

  ghost function DropAll(s: State): State {
    s.(subs := map[],
       items := s.items - |s.subs|,
       bytes := s.bytes - Total(SubBytes(s.subs)))
  }

  /** End the physical connection at once; its later callbacks are stale. */
  ghost function Retire(s: State): State {
    s.(socket := false, open := false, ready := false, subs := ForgetEvents(s.subs))
  }

  ghost function Fail(s: State, code: Code): State {
    if s.failed || s.closed then s
    else
      var s1 := SettleAll(s, PermanentFailure, code);
      var s2 := s1.(failed := true, resuming := false, reconnect := None, attempt := None);
      Retire(DropAll(NotifyAll(s2, Trouble(Error(code, false, None)))))
  }

  ghost function ScheduleReconnect(s: State): State {
    if s.reconnect.Some? || s.socket || s.suspended then s
    else
      var s1 := s.(resuming := false);
      match s.env.delay
      case None => Fail(s1, Internal)
      case Some(d) => s1.(reconnect := Some(s.env.now + d))
  }

  predicate InFlight(r: Request, generation: nat) {
    r.kind.Procedure? && r.sent == Some(generation)
  }

  ghost function SettleInFlight(s: State): State {
    Settle(s, map id | id in s.pending && InFlight(s.pending[id], s.generation)
                :: Rejected(ConnectionLost, Indeterminate))
  }

  /** The current socket is gone: procedures sent on it are indeterminate, the rest waits. */
  ghost function LoseConnection(s: State): State {
    var s1 := SettleInFlight(s);
    var s2 := Retire(s1).(resuming := false);
    if s.closed || s.failed || s.blocked then s2 else ScheduleReconnect(s2)
  }

  ghost function EnsureConnected(s: State): State {
    if s.closed || s.failed || s.blocked || s.suspended || s.socket then s
    else if s.notBefore > s.env.now then ScheduleReconnect(s)
    else
      var s1 := s.(reconnect := None);
      if !s.env.dial then ScheduleReconnect(s1)
      else s1.(socket := true, generation := s.generation + 1,
               log := s.log.(admissions := s.log.admissions + [Dialed(s.env.now)]))
  }

  predicate CanSend(s: State) {
    s.open && s.ready && s.attempt.None? && s.socket
  }

  /** Send one frame; a throwing socket is treated as closed. */
  ghost function Send(s: State, f: ClientFrame): State {
    if !(s.socket && s.open) then s
    else if s.env.sends > 0 then
      s.(env := s.env.(sends := s.env.sends - 1),
         log := s.log.(wire := s.log.wire + [Transmission(s.generation, f)]))
    else LoseConnection(s)
  }

  predicate Fits(c: Config, f: ClientFrame) {
    c.measure(f).Some? && c.measure(f).value <= c.maxFrameBytes
  }

  // ------------------------------------------------------- requests in flight

  ghost function SendRequest(s: State, id: nat): State
    requires id in s.pending
  {
    var s1 := Send(s, Call(id, s.pending[id].kind));
    if id in s1.pending
    then s1.(pending := s1.pending[id := s1.pending[id].(sent := Some(s1.generation))])
    else s1
  }

  ghost function SendSub(s: State, id: nat): State
    requires id in s.subs
  {
    var s1 := Send(s, s.subs[id].frame);
    if id in s1.subs
    then s1.(subs := s1.subs[id := s1.subs[id].(sent := Some(s1.generation))])
    else s1
  }

  /** Best effort: only a procedure sent on the live connection has anything to cancel. */
  ghost function SendCancel(s: State, id: nat): State {
    if id in s.pending && InFlight(s.pending[id], s.generation) && CanSend(s)
    then Send(s, Cancel(id))
    else s
  }

  function ExpiryCode(r: Request): Code {
    if r.pledge.Some? then ConvergenceUnavailable
    else if !r.kind.Query? && r.sent.Some? then Indeterminate
    else DeadlineExceeded
  }

  function AbandonCode(r: Request): Code {
    if !r.kind.Query? && r.sent.Some? then Indeterminate else Unavailable
  }

  ghost function Expire(s: State, id: nat): State {
    if id !in s.pending then s
    else Finish(SendCancel(s, id), id, Rejected(Deadline, ExpiryCode(s.pending[id])))
  }

  ghost function Abort(s: State, id: nat): State {
    if id !in s.pending || !s.pending[id].kind.Procedure? then s
    else Finish(SendCancel(s, id), id, Rejected(Canceled, AbandonCode(s.pending[id])))
  }

  ghost function FlushSubs(s: State, id: nat, end: nat): State
    decreases end - id
  {
    if id >= end then s
    else
      var s1 := if id in s.subs && !s.subs[id].waiting && s.subs[id].sent != Some(s.generation)
                then SendSub(s, id) else s;
      FlushSubs(s1, id + 1, end)
  }

  ghost function FlushRequests(s: State, id: nat, end: nat): State
    decreases end - id
  {
    if id >= end then s
    else
      var s1 := if id !in s.pending then s
                else if s.pending[id].expiresAt <= s.env.now then Expire(s, id)
                else if s.pending[id].sent != Some(s.generation) then SendRequest(s, id)
                else s;
      FlushRequests(s1, id + 1, end)
  }

  ghost function Flush(s: State): State {
    if CanSend(s) then FlushRequests(FlushSubs(s, 0, s.nextId), 0, s.nextId) else s
  }

  // ------------------------------------------------------------- convergence

  predicate Released(r: Request, id: nat, upTo: Option<nat>) {
    && r.kind.Mutation?
    && r.pledge.Some?
    && id in r.pledge.value.obligations
    && (upTo.Some? ==> r.pledge.value.version <= upTo.value)
  }

  function WithoutObligation(r: Request, id: nat): Request
    requires r.pledge.Some?
  {
    r.(pledge := Some(r.pledge.value.(obligations := r.pledge.value.obligations - {id})))
  }

  function Convergence(p: Pledge): Settlement {
    Converged(p.answer, p.version, p.registered)
  }

  /**
   * Subscription `id` no longer holds back the mutations whose version it has
   * reached (`upTo`), or any mutation at all when it is gone (`None`).
   */
  ghost function Discharge(s: State, id: nat, upTo: Option<nat>): State {
    var s1 := Settle(s, Converging(s.pending, id, upTo));
    s1.(pending := Reduced(s1.pending, id, upTo))
  }

  ghost function Reduced(pending: map<nat, Request>, id: nat, upTo: Option<nat>): map<nat, Request> {
    map r | r in pending ::
      if Released(pending[r], id, upTo) then WithoutObligation(pending[r], id) else pending[r]
  }

  /** The mutations for which this was the last obligation. */
  ghost function Converging(pending: map<nat, Request>, id: nat, upTo: Option<nat>): map<nat, Settlement> {
    map r | r in pending && Released(pending[r], id, upTo) && pending[r].pledge.value.obligations == {id}
      :: Convergence(pending[r].pledge.value)
  }

  ghost function Drop(s: State, id: nat): State
    requires id in s.subs
  {
    s.(subs := s.subs - {id}, items := s.items - 1, bytes := s.bytes - s.subs[id].bytes)
  }

  ghost function RemoveSub(s: State, id: nat, announce: bool): State {
    if id !in s.subs then s
    else
      var s1 := Drop(s, id);
      var s2 := if announce && CanSend(s1) then Send(s1, Unsubscribe(id)) else s1;
      Discharge(s2, id, None)
  }

  // ------------------------------------------------------------- transitions

  predicate PredecessorMatches(cursor: Option<Cursor>, t: Transition) {
    match t
    case Reset(from, _, _) => from.None? || cursor == from
    case ApplicationError(from, _, _) => from.Some? && cursor == from
    case Update(source, _, _) => cursor == Some(source)
    case Checkpoint(source, _) => cursor == Some(source)
    case Resume(source, _) => cursor == Some(source)
    case Revoked(source, _, _) => cursor == Some(source)
  }

  function Callback(t: Transition): Delivery {
    match t
    case Reset(_, _, value) => Fresh(value)
    case Update(_, _, value) => Fresh(value)
    case ApplicationError(_, _, error) => Refused(error)
    case Revoked(_, _, outcome) => Denied(outcome)
    case Checkpoint(_, _) => Confirmed
    case Resume(_, _) => Confirmed
  }

  ghost function RequestReset(s: State, id: nat): State
    requires id in s.subs && s.subs[id].stream.Outcomes?
  {
    var q := s.subs[id].stream;
    if q.resetRequested then s
    else
      var s1 := s.(subs := s.subs[id := s.subs[id].(stream := q.(resetRequested := true))]);
      if !CanSend(s1) then s1
      else if q.cursor.Some? then Send(s1, ResetFrame(id, q.cursor.value))
      else Send(s1, SubscribeFrame(id, None))
  }

  predicate Retainable(s: State, id: nat, to: Cursor)
    requires id in s.subs
  {
    var f := SubscribeFrame(id, Some(to));
    Fits(s.config, f) && s.bytes - s.subs[id].bytes + s.config.measure(f).value <= s.config.maxBytes
  }

  /** Hold a new cursor: the resume frame is rebuilt and its size replaces the old one. */
  ghost function Retain(s: State, id: nat, t: Transition): State
    requires id in s.subs && s.subs[id].stream.Outcomes? && Retainable(s, id, t.to)
  {
    var f := SubscribeFrame(id, Some(t.to));
    var size := s.config.measure(f).value;
    s.(subs := s.subs[id := s.subs[id].(frame := f, bytes := size, stream := Outcomes(Some(t.to), false))],
       bytes := s.bytes - s.subs[id].bytes + size,
       log := s.log.(held := s.log.held[id := HeldBy(s.log, id) + [Held(t.to, t.Reset? || t.Revoked?)]]))
  }

  ghost function SettleRetry(s: State, id: nat): State
    requires id in s.subs
  {
    s.(subs := s.subs[id := s.subs[id].(waiting := false)])
  }

  ghost function Demand(s: State, id: nat, asking: bool): State
    requires id in s.subs && s.subs[id].stream.Outcomes?
  {
    s.(subs := s.subs[id := s.subs[id].(stream := s.subs[id].stream.(resetRequested := asking))])
  }

  /** A transition landed on the held cursor; only a reset ends an outstanding demand for one. */
  ghost function ConfirmHeld(s: State, id: nat, isReset: bool, version: nat): State
    requires id in s.subs && s.subs[id].stream.Outcomes?
  {
    var asking := s.subs[id].stream.resetRequested && !isReset;
    var s1 := Discharge(Demand(s, id, asking), id, Some(version));
    if asking then s1 else Notify(s1, id, Confirmed)
  }

  ghost function Advance(s: State, id: nat, t: Transition): State
    requires id in s.subs && s.subs[id].stream.Outcomes?
  {
    if !Retainable(s, id, t.to) then
      var tooLarge := !Fits(s.config, SubscribeFrame(id, Some(t.to)));
      var problem := Error(Overloaded, !tooLarge, if tooLarge then None else Some(s.config.baseDelay));
      RemoveSub(Notify(s, id, Trouble(problem)), id, true)
    else
      Discharge(Notify(Retain(s, id, t), id, Callback(t)), id, Some(t.to.commitVersion))
  }

  ghost function ApplyTransition(s: State, id: nat, t: Transition): State {
    if id !in s.subs then s
    else if s.subs[id].stream.Events? then Fail(s, Malformed)
    else
      var s1 := SettleRetry(s, id);
      var q := s1.subs[id].stream;
      if q.cursor == Some(t.to) then ConfirmHeld(s1, id, t.Reset?, t.to.commitVersion)
      else if q.resetRequested && !t.Reset? then s1
      else if !PredecessorMatches(q.cursor, t) then RequestReset(s1, id)
      else Advance(s1, id, t)
  }

  ghost function ApplyLive(s: State, id: nat, e: LiveEvent): State {
    if id !in s.subs then s
    else if s.subs[id].stream.Outcomes? then Fail(s, Malformed)
    else
      var s1 := SettleRetry(s, id);
      if s1.subs[id].stream.at == Some(e.at) then s1 else Hear(s1, id, e.at, Heard(s1.subs[id].stream.at, e))
  }

  /** A row that does not follow the last position shows as a gap. */
  function Heard(at: Option<EventCursor>, e: LiveEvent): LiveEvent {
    var missed := e.Row? && at.Some?
      && (at.value.generation != e.at.generation || e.at.sequence != at.value.sequence + 1);
    if missed then Gap(e.at) else e
  }

  ghost function Hear(s: State, id: nat, at: EventCursor, e: LiveEvent): State
    requires id in s.subs
  {
    Notify(s.(subs := s.subs[id := s.subs[id].(stream := Events(Some(at)))]), id, Happened(e))
  }

  // ----------------------------------------------------------------- results

  ghost function Named(r: Receipt): set<nat> {
    set i | 0 <= i < |r.obligations| :: r.obligations[i]
  }

  predicate Behind(sub: Subscription, version: nat) {
    sub.stream.Outcomes? && (sub.stream.cursor.None? || sub.stream.cursor.value.commitVersion < version)
  }

  /** Of the subscriptions `ks`, those that have not reached the version. */
  ghost function Late(subs: map<nat, Subscription>, ks: set<nat>, version: nat): set<nat>
    requires ks <= subs.Keys
  {
    set k | k in ks && Behind(subs[k], version)
  }

  ghost function ApplyReceipt(s: State, id: nat, receipt: Receipt, answer: Answer): State
    requires id in s.pending
  {
    var r := s.pending[id];
    if receipt.requestId != r.requestId then Fail(s, Malformed)
    else
      var registered := Named(receipt) * s.subs.Keys;
      var behind := Late(s.subs, registered, receipt.commitVersion);
      var pledge := Pledge(receipt.commitVersion, answer, registered, behind);
      if exists k :: k in registered && s.subs[k].stream.Events? then Fail(s, Malformed)
      else if behind == {} then Finish(s, id, Convergence(pledge))
      else s.(pending := s.pending[id := r.(pledge := Some(pledge))])
  }

  ghost function ApplyResult(s: State, id: nat, kind: Kind, answer: Answer, receipt: Option<Receipt>): State {
    if id !in s.pending then s
    else if kind != s.pending[id].kind then Fail(s, Malformed)
    else if !kind.Mutation? then Finish(s, id, Answered(answer))
    else if receipt.None? then Fail(s, Malformed)
    else ApplyReceipt(s, id, receipt.value, answer)
  }

  ghost function Block(s: State, e: Error): State {
    var s1 := NotifyAll(SettleAll(s, AuthenticationBlocked, e.code), Trouble(e));
    Retire(s1.(blocked := true, resuming := false, attempt := None))
  }

  ghost function ScheduleRetry(s: State, id: nat): State
    requires id in s.subs
  {
    if s.subs[id].waiting then s
    else
      var s1 := s.(subs := s.subs[id := s.subs[id].(sent := None)]);
      match s.env.delay
      case None => Fail(s1, Internal)
      case Some(_) => s1.(subs := s1.subs[id := s1.subs[id].(waiting := true)])
  }

  function RetryDeadline(now: nat, e: Error): nat {
    var asked := if e.retryAfterMs.Some? then e.retryAfterMs.value else 0;
    now + if asked < MAX_RETRY_AFTER_MS then asked else MAX_RETRY_AFTER_MS
  }

  ghost function ApplyConnectionError(s: State, e: Error): State {
    if e.retryable then
      var d := RetryDeadline(s.env.now, e);
      s.(notBefore := if s.notBefore < d then d else s.notBefore,
         log := s.log.(admissions := s.log.admissions + [NotBefore(d)]))
    else if IsAuthCode(e.code) then Block(s, e)
    else Fail(s, e.code)
  }

  ghost function ApplyError(s: State, target: Option<nat>, e: Error): State {
    match target
    case None => ApplyConnectionError(s, e)
    case Some(id) =>
      if s.attempt.Some? && s.attempt.value.id == id then Block(s, e)
      else if id in s.pending then Finish(s, id, Rejected(ServerError, e.code))
      else if id in s.subs then
        var s1 := Notify(s, id, Trouble(e));
        if e.retryable then ScheduleRetry(s1, id) else RemoveSub(s1, id, false)
      else s
  }

  // ----------------------------------------------------------- authentication

  ghost function SendAuth(s: State): State
    requires s.attempt.Some?
  {
    Send(s, Auth(s.attempt.value.id, s.attempt.value.credential))
  }

  ghost function ApplyWelcome(s: State, session: string): State {
    if session != s.config.session then Fail(s, Malformed)
    else if s.ready then s
    else
      Flush(Introduce(s.(ready := true, everReady := true, resuming := false)))
  }

  /** A presentation the hello already made is over; any other is made now. */
  ghost function Introduce(s: State): State {
    if s.attempt.None? then s
    else if s.hello == Some(s.attempt.value.credential) then s.(attempt := None)
    else SendAuth(s)
  }

  ghost function ApplyAuthAccepted(s: State, attemptId: nat): State {
    if s.attempt.None? || s.attempt.value.id != attemptId then s
    else Flush(s.(attempt := None))
  }

  ghost function ExpireAttempt(s: State): State {
    if s.attempt.None? then s
    else Retire(s.(attempt := None, blocked := true, resuming := false))
  }

  // ------------------------------------------------------------------- events

  datatype Event =
    | Opened(generation: nat)
    | Incoming(generation: nat, frame: ServerFrame)
    | Lost(generation: nat)
    | ReconnectDue | AttemptDue | RequestDue(id: nat) | RetryDue(id: nat) | PingDue(generation: nat)
    | Suspend | Resume
    | Ask(kind: Kind, requestId: string)
    | AbortCall(id: nat)
    | Watch(query: bool)
    | Unwatch(id: nat)
    | Refresh(credential: Credential)
    | Reserve(key: nat, size: nat)
    | Release(key: nat)
    | Close

  predicate Current(s: State, generation: nat) {
    s.socket && s.generation == generation
  }

  ghost function OnOpen(s: State, generation: nat): State {
    if !Current(s, generation) || s.closed then s
    else
      var s1 := s.(open := true, hello := Some(s.credential));
      if Fits(s.config, Hello(s.credential)) then Send(s1, Hello(s.credential)) else Fail(s1, Overloaded)
  }

  ghost function Dispatch(s: State, f: ServerFrame): State {
    match f
    case Welcome(session) => ApplyWelcome(s, session)
    case AuthAccepted(attemptId) => ApplyAuthAccepted(s, attemptId)
    case Deliver(id, t) => ApplyTransition(s, id, t)
    case Live(id, e) => ApplyLive(s, id, e)
    case Result(id, kind, answer, receipt) => ApplyResult(s, id, kind, answer, receipt)
    case Failure(target, e) => ApplyError(s, target, e)
    case Pong => s
    case Undecodable => s
  }

  ghost function OnFrame(s: State, generation: nat, f: ServerFrame): State {
    if !Current(s, generation) || s.closed then s
    else if !AcceptedFrame(s.ready, f) then Fail(s, Malformed)
    else Dispatch(s, f)
  }

  ghost function OnLost(s: State, generation: nat): State {
    if Current(s, generation) then LoseConnection(s) else s
  }

  ghost function OnReconnectDue(s: State): State {
    EnsureConnected(s.(reconnect := None))
  }

  ghost function OnRetryDue(s: State, id: nat): State {
    if id !in s.subs || !s.subs[id].waiting then s
    else
      var s1 := SettleRetry(s, id);
      if CanSend(s1) then SendSub(s1, id) else EnsureConnected(s1)
  }

  ghost function OnPing(s: State, generation: nat): State {
    if s.ready && s.generation == generation then Send(s, Ping) else s
  }

  ghost function CancelInFlight(s: State, id: nat, end: nat): State
    decreases end - id
  {
    if id >= end then s else CancelInFlight(SendCancel(s, id), id + 1, end)
  }

  ghost function SettleProcedures(s: State): State {
    Settle(s, map id | id in s.pending && s.pending[id].kind.Procedure?
                :: Rejected(Suspension, AbandonCode(s.pending[id])))
  }

  ghost function OnSuspend(s: State): State {
    if s.closed || s.suspended then s
    else
      var s1 := CancelInFlight(s, 0, s.nextId);
      var s2 := SettleProcedures(s1);
      Retire(s2.(suspended := true, resuming := false, reconnect := None,
                 attempt := if s2.attempt.Some? then Some(s2.attempt.value.(armed := None)) else None))
  }

  /** The presentation timer runs again for what is left of its time. */
  ghost function Rearm(s: State): State {
    if s.attempt.None? then s
    else if s.attempt.value.expiresAt <= s.env.now then ExpireAttempt(s)
    else s.(attempt := Some(s.attempt.value.(armed := Some(s.arms))), arms := s.arms + 1)
  }

  ghost function Reopen(s: State): State {
    if s.failed || s.blocked then s else EnsureConnected(s.(resuming := true))
  }

  ghost function OnResume(s: State): State {
    if s.closed || !s.suspended then s
    else
      Reopen(Rearm(s.(suspended := false)))
  }

  predicate Usable(s: State) {
    !s.closed && !s.failed && !s.blocked
  }

  /** Room for one more reservation of this size. */
  predicate Admits(s: State, size: nat) {
    s.items < s.config.maxItems && size <= s.config.maxBytes - s.bytes
  }

  function MaxAge(c: Config, kind: Kind): nat {
    if kind.Mutation? then c.maxMutationAge else c.maxQueryAge
  }

  /** Register a request under the next id. */
  ghost function Asked(s: State, r: Request): State {
    s.(nextId := s.nextId + 1, pending := s.pending[s.nextId := r], arms := s.arms + 1,
       items := s.items + 1, bytes := s.bytes + r.bytes,
       log := s.log.(issued := s.log.issued + {s.nextId}))
  }

  ghost function ConnectAndSend(s: State, id: nat): State {
    var s1 := EnsureConnected(s);
    if CanSend(s1) && id in s1.pending then SendRequest(s1, id) else s1
  }

  ghost function OnAsk(s: State, kind: Kind, requestId: string): State {
    if !Usable(s) || (kind.Procedure? && s.suspended) || s.nextId > MAX_PROTOCOL_ID then s
    else
      var f := Call(s.nextId, kind);
      if !Fits(s.config, f) || !Admits(s, s.config.measure(f).value) then s.(nextId := s.nextId + 1)
      else
        var r := Request(kind, s.config.measure(f).value, s.env.now + MaxAge(s.config, kind), s.arms,
                         requestId, None, None);
        ConnectAndSend(Asked(s, r), s.nextId)
  }

  /** Register a subscription under the next id. */
  ghost function Watched(s: State, sub: Subscription): State {
    s.(nextId := s.nextId + 1, subs := s.subs[s.nextId := sub],
       items := s.items + 1, bytes := s.bytes + sub.bytes)
  }

  ghost function ConnectAndSubscribe(s: State, id: nat): State {
    var s1 := EnsureConnected(s);
    if CanSend(s1) && id in s1.subs then SendSub(s1, id) else s1
  }

  /** The client takes a new subscription on. */
  predicate Accepts(s: State) {
    var f := SubscribeFrame(s.nextId, None);
    Usable(s) && s.nextId <= MAX_PROTOCOL_ID && Fits(s.config, f) && Admits(s, s.config.measure(f).value)
  }

  ghost function OnWatch(s: State, query: bool): State {
    if !Usable(s) || s.nextId > MAX_PROTOCOL_ID then s
    else
      var f := SubscribeFrame(s.nextId, None);
      if !Fits(s.config, f) || !Admits(s, s.config.measure(f).value) then s.(nextId := s.nextId + 1)
      else
        var sub := Subscription(f, s.config.measure(f).value, None, false,
                                if query then Outcomes(None, false) else Events(None));
        ConnectAndSubscribe(Watched(s, sub), s.nextId)
  }

  /** A credential to be presented under an id; its timer starts unless suspended. */
  ghost function Present(s: State, id: nat, credential: Credential): State {
    var attempt := Attempt(id, credential, s.env.now + s.config.maxQueryAge,
                           if s.suspended then None else Some(s.arms));
    s.(credential := credential, blocked := false, attempt := Some(attempt), arms := s.arms + 1)
  }

  ghost function Announce(s: State): State
    requires s.attempt.Some?
  {
    if s.ready then SendAuth(s) else EnsureConnected(s)
  }

  ghost function OnRefresh(s: State, credential: Credential): State {
    if s.closed || s.failed then s
    else if s.attempt.Some? && s.attempt.value.credential == credential then s
    else if s.nextId > MAX_PROTOCOL_ID then s
    else
      var id := s.nextId;
      var s1 := s.(nextId := id + 1);
      if !Fits(s.config, Auth(id, credential)) then s1
      else
        Announce(Present(s1, id, credential))
  }

  ghost function OnReserve(s: State, key: nat, size: nat): State {
    if key in s.others || size > s.config.maxFrameBytes || !Admits(s, size) then s
    else s.(others := s.others[key := size], items := s.items + 1, bytes := s.bytes + size)
  }

  ghost function OnRelease(s: State, key: nat): State {
    if key !in s.others then s
    else s.(others := s.others - {key}, items := s.items - 1, bytes := s.bytes - s.others[key])
  }

  ghost function SettleClosed(s: State): State {
    Settle(s, map id | id in s.pending :: Rejected(ClientClosed, AbandonCode(s.pending[id])))
  }

  ghost function OnClose(s: State): State {
    if s.closed then s
    else
      DropAll(SettleClosed(s)).(closed := true, reconnect := None, attempt := None,
                                 socket := false, open := false, ready := false)
  }

  ghost function React(s: State, e: Event): State {
    match e
    case Opened(g) => OnOpen(s, g)
    case Incoming(g, f) => OnFrame(s, g, f)
    case Lost(g) => OnLost(s, g)
    case ReconnectDue => OnReconnectDue(s)
    case AttemptDue => ExpireAttempt(s)
    case RequestDue(id) => Expire(s, id)
    case RetryDue(id) => OnRetryDue(s, id)
    case PingDue(g) => OnPing(s, g)
    case Suspend => OnSuspend(s)
    case Resume => OnResume(s)
    case Ask(kind, requestId) => OnAsk(s, kind, requestId)
    case AbortCall(id) => Abort(s, id)
    case Watch(query) => OnWatch(s, query)
    case Unwatch(id) => RemoveSub(s, id, true)
    case Refresh(credential) => OnRefresh(s, credential)
    case Reserve(key, size) => OnReserve(s, key, size)
    case Release(key) => OnRelease(s, key)
    case Close => OnClose(s)
  }

  ghost function Step(s: State, env: Env, e: Event): State {
    React(s.(env := env), e)
  }

  /** Construction; a lifecycle source may report a backgrounded application first. */
  ghost function Start(config: Config, env: Env, credential: Credential, suspended: bool): State {
    EnsureConnected(State(
      config, env, false, false, false, 0,
      false, false, false, suspended, false, false,
      None, 0, 1, 0, credential, None, None,
      map[], map[], 0, 0, map[],
      Log(map[], map[], map[], {}, [], [])))
  }

  /** `a` fires before `b`: earlier deadline, or the same deadline and armed first. */
  predicate FiresBefore(deadlineA: nat, armedA: nat, deadlineB: nat, armedB: nat) {
    deadlineA < deadlineB || (deadlineA == deadlineB && armedA < armedB)
  }

  /**
   * What the platform guarantees about the next event: the clock does not go
   * back, timers fire when armed and due, and the presentation timer does not
   * overtake a request timer that comes before it.
   */
  predicate Enabled(s: State, env: Env, e: Event) {
    && s.env.now <= env.now
    && match e
       case ReconnectDue => s.reconnect.Some? && s.reconnect.value <= env.now
       case AttemptDue =>
         && s.attempt.Some? && s.attempt.value.armed.Some? && s.attempt.value.expiresAt <= env.now
         && (forall id | id in s.pending ::
               !FiresBefore(s.pending[id].expiresAt, s.pending[id].armed,
                            s.attempt.value.expiresAt, s.attempt.value.armed.value))
       case RequestDue(id) => id in s.pending && s.pending[id].expiresAt <= env.now
       case RetryDue(id) => id in s.subs && s.subs[id].waiting && !s.suspended
       case _ => true
  }

  datatype Phase =
    | Connecting | Reconnecting | Resuming | Ready
    | Suspended | AuthenticationBlockedPhase | TerminalError | ClosedPhase

  /** The connection state published to listeners. */
  function PhaseOf(s: State): Phase {
    if s.closed then ClosedPhase
    else if s.failed then TerminalError
    else if s.blocked then AuthenticationBlockedPhase
    else if s.suspended then Phase.Suspended
    else if s.ready then Phase.Ready
    else if s.resuming then Phase.Resuming
    else if s.everReady then Reconnecting
    else Connecting
  }
}
