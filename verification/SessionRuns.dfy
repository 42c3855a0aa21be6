/**
 * Whole runs of the session: any sequence of events the platform, the server and
 * the callers can produce, with frames lost, duplicated or reordered and any
 * number of reconnects.
 */
module SessionRuns {
  import opened Basics
  import opened Protocol
  import opened SessionSpec
  import opened SessionInvariants
  import opened SessionAtoms
  import opened SessionConnection
  import opened SessionSending
  import opened SessionFlushing
  import opened SessionTransitions
  import opened SessionEvents
  import opened SessionCalls

  // --------------------------------------------------------------- one step

  /** What is known once a frame has been dispatched. */
  ghost function Taught(s: State, f: ServerFrame, w: World): World {
    if f.Result? then Learning(s, f.id, f.kind, f.answer, f.receipt, w) else w
  }

  lemma DispatchKeeps(s: State, f: ServerFrame, w: World)
    requires Inv(s, w) && w.leaving == {} && s.socket && AcceptedFrame(s.ready, f)
    requires f.Deliver? ==> HonestTransition(w.truth, f.id, f.transition)
    ensures var t := Dispatch(s, f);
            Inv(t, Taught(s, f, w)) && Grows(s.log, t.log) && Voiced(s.log, t) && BroughtBy(s, f, t)
  {
    hide Inv, Resolves, Tells, Grows, Voiced, Extends, BroughtBy, HonestTransition, AcceptedTransition, AcceptedReceipt;
    hide ApplyWelcome, ApplyAuthAccepted, ApplyTransition, ApplyLive, ApplyResult, ApplyError, IsReceipt, PromiseOf;
    ExtendsItself(s.log);
    match f {
    case Welcome(session) => ApplyWelcomeKeeps(s, session, w);
    case AuthAccepted(attemptId) => ApplyAuthAcceptedKeeps(s, attemptId, w);
    case Deliver(id, t) => ApplyTransitionKeeps(s, id, t, w);
    case Live(id, e) => ApplyLiveKeeps(s, id, e, w);
    case Result(id, kind, answer, receipt) => ApplyResultKeeps(s, id, kind, answer, receipt, w);
    case Failure(target, e) => ApplyErrorKeeps(s, target, e, w);
    case Pong =>
    case Undecodable =>
    }
    if f.Result? || f.Failure? {
      ResolvedIsVoiced(s.log, Dispatch(s, f));
    } else if f.Deliver? {
      ToldIsUnanswered(s, f, Dispatch(s, f));
    } else {
      NothingBrought(s, f, Dispatch(s, f));
      ResolvedIsVoiced(s.log, Dispatch(s, f));
    }
  }

  lemma ResolvedIsVoiced(a: Log, t: State)
    requires Resolves(a, t.log)
    ensures Grows(a, t.log) && Voiced(a, t)
  {
  }

  lemma ToldIsUnanswered(s: State, f: ServerFrame, t: State)
    requires Tells(s.log, t)
    ensures Grows(s.log, t.log) && Voiced(s.log, t) && BroughtBy(s, f, t)
  {
  }

  lemma QuietIsUnanswered(a: Log, t: State)
    requires Extends(a, t.log)
    ensures Grows(a, t.log) && Voiced(a, t) && Unanswered(a, t.log)
  {
  }

  /** A frame of the current connection that may come now. */
  predicate Listens(s: State, generation: nat, f: ServerFrame) {
    Current(s, generation) && !s.closed && AcceptedFrame(s.ready, f)
  }

  lemma OnFrameKeeps(s: State, generation: nat, f: ServerFrame, w: World)
    requires Inv(s, w) && w.leaving == {}
    requires f.Deliver? ==> HonestTransition(w.truth, f.id, f.transition)
    ensures var v := if Listens(s, generation, f) then Taught(s, f, w) else w;
            var t := OnFrame(s, generation, f);
            && Inv(t, v) && Grows(s.log, t.log) && Voiced(s.log, t)
            && (if Listens(s, generation, f) then BroughtBy(s, f, t) else Unanswered(s.log, t.log))
  {
    hide Inv, Tells, Grows, Voiced, Unanswered, Extends, BroughtBy;
    hide Dispatch, AcceptedFrame, HonestTransition, Fail, Taught;
    ExtendsItself(s.log);
    QuietIsUnanswered(s.log, s);
    if Current(s, generation) && !s.closed {
      InvFailed(s, Malformed, w);
      QuietIsUnanswered(s.log, Fail(s, Malformed));
      if AcceptedFrame(s.ready, f) { DispatchKeeps(s, f, w); }
    }
  }

  lemma OpenKeeps(s: State, w: World)
    requires Inv(s, w) && s.socket
    ensures Inv(s.(open := true, hello := Some(s.credential)), w)
  {
    hide Data;
    OpenKeepsData(s, w);
  }

  lemma OpenKeepsData(s: State, w: World)
    requires Data(s, w)
    ensures Data(s.(open := true, hello := Some(s.credential)), w)
  {
    hide Books, Ledgered, Truthful, Chained, Converges, Timers, Flight, Carried, Endings, Admitted;
  }

  lemma OnOpenKeeps(s: State, generation: nat, w: World)
    requires Inv(s, w)
    ensures Inv(OnOpen(s, generation), w) && Extends(s.log, OnOpen(s, generation).log)
  {
    hide Inv, Extends, Send, Fail, Fits;
    ExtendsItself(s.log);
    if Current(s, generation) && !s.closed {
      OpenKeeps(s, w);
      var s1 := s.(open := true, hello := Some(s.credential));
      SendKeeps(s1, Hello(s.credential), w);
      InvFailed(s1, Overloaded, w);
    }
  }

  lemma OnReconnectDueKeeps(s: State, w: World)
    requires Inv(s, w) && s.reconnect.Some?
    ensures Inv(OnReconnectDue(s), w) && Extends(s.log, OnReconnectDue(s).log)
  {
    hide Books, Ledgered, Truthful, Chained, Converges, Timers, Flight, Carried, Endings, Admitted, Extends,
         EnsureConnected;
    EnsureConnectedKeeps(s.(reconnect := None), w);
  }

  lemma OnRetryDueKeeps(s: State, id: nat, w: World)
    requires Inv(s, w)
    ensures Inv(OnRetryDue(s, id), w) && Extends(s.log, OnRetryDue(s, id).log)
  {
    hide Inv, Extends, SendSub, EnsureConnected;
    ExtendsItself(s.log);
    if id in s.subs {
      TweakSubKeeps(s, id, s.subs[id].(waiting := false), w);
      var s1 := SettleRetry(s, id);
      if CanSend(s1) { SendSubKeeps(s1, id, w); }
      ConnectKeeps(s1, w);
    }
  }

  lemma OnLostKeeps(s: State, generation: nat, w: World)
    requires Inv(s, w)
    ensures Inv(OnLost(s, generation), w) && Extends(s.log, OnLost(s, generation).log)
  {
    hide Inv, Extends, LoseConnection;
    ExtendsItself(s.log);
    if Current(s, generation) { LoseConnectionKeeps(s, w); }
  }

  lemma OnPingKeeps(s: State, generation: nat, w: World)
    requires Inv(s, w)
    ensures Inv(OnPing(s, generation), w) && Extends(s.log, OnPing(s, generation).log)
  {
    hide Inv, Extends, Send;
    ExtendsItself(s.log);
    SendKeeps(s, Ping, w);
  }

  /** No transmitted procedure outlives a presentation timer that fires in order. */
  lemma AttemptDueGrounded(s: State, env: Env, w: World)
    requires Inv(s, w) && Enabled(s, env, AttemptDue)
    ensures Grounded(s.log.wire, s.pending)
  {
    hide Books, Ledgered, Truthful, Chained, Converges, Timers, Carried, Endings, Admitted, Linked, Standing;
    forall id | id in s.pending && s.pending[id].kind.Procedure?
      ensures Transmissions(s.log.wire, id) == []
    {
      assert RequestFlight(s.log.wire, s.socket && s.ready, s.generation, s.attempt, id, s.pending[id]);
      assert !FiresBefore(s.pending[id].expiresAt, s.pending[id].armed,
                          s.attempt.value.expiresAt, s.attempt.value.armed.value);
    }
  }

  lemma LaterTimers(config: Config, now: nat, later: nat, arms: nat, pending: map<nat, Request>)
    requires Timers(config, now, arms, pending) && now <= later
    ensures Timers(config, later, arms, pending)
  {
    forall id | id in pending
      ensures RequestTimer(config, later, arms, pending[id])
    {
      assert RequestTimer(config, now, arms, pending[id]);
    }
  }

  /** Whether mutations converge depends only on the subscriptions and receipts. */
  lemma ConvergesElsewhere(s: State, w: World, v: World)
    requires Converges(s.subs, s.pending, s.log.settled, s.log.held, w)
    requires w.leaving == v.leaving && w.promised == v.promised
    ensures Converges(s.subs, s.pending, s.log.settled, s.log.held, v)
  {
    hide WaitsFor, ConvergedHolds;
    forall id | id in s.pending
      ensures PledgeHolds(s.subs, s.log.held, v, id, s.pending[id])
    {
      assert PledgeHolds(s.subs, s.log.held, w, id, s.pending[id]);
    }
  }

  lemma ClockKeeps(s: State, env: Env, w: World)
    requires Inv(s, w) && s.env.now <= env.now
    ensures Inv(s.(env := env), w.(now := env.now))
  {
    hide Books, Ledgered, Truthful, Chained, Converges, Timers, Flight, Carried, Endings, Dials;
    LaterTimers(s.config, s.env.now, env.now, s.arms, s.pending);
    ConvergesElsewhere(s, w, w.(now := env.now));
  }

  lemma AttemptDueKeeps(s0: State, env: Env, w: World)
    requires Inv(s0, w) && Enabled(s0, env, AttemptDue)
    ensures var t := ExpireAttempt(s0.(env := env)); Inv(t, w.(now := env.now)) && Extends(s0.log, t.log)
  {
    hide Data, Extends, ExpireAttempt, Grounded;
    ExtendsItself(s0.log);
    AttemptDueGrounded(s0, env, w);
    ClockKeeps(s0, env, w);
    ExpireAttemptKeeps(s0.(env := env), w.(now := env.now));
  }

  /** What is known once an event has happened. */
  ghost function Knowing(s: State, e: Event, w: World): World {
    if e.Incoming? && Listens(s, e.generation, e.frame) then Taught(s, e.frame, w) else w
  }

  lemma ClockTeachesNothing(s: State, env: Env, e: Event, w: World)
    ensures Knowing(s.(env := env), e, w) == Knowing(s, e, w)
  {
    hide AcceptedFrame;
  }

  lemma StepKeeps(s0: State, env: Env, e: Event, w: World)
    requires Inv(s0, w) && w.leaving == {} && Enabled(s0, env, e) && Honest(w.truth, e)
    requires w.promised.Keys <= s0.log.issued
    ensures var t := Step(s0, env, e);
            && Inv(t, Knowing(s0, e, w.(now := env.now))) && Grows(s0.log, t.log) && Voiced(s0.log, t)
            && BroughtIn(s0, e, t)
  {
    hide Inv, Grows, Voiced, Unanswered, BroughtBy, Extends, HonestTransition, Taught, Listens;
    hide OnOpen, OnFrame, OnLost, OnReconnectDue, ExpireAttempt, Expire, OnRetryDue, OnPing, OnSuspend, OnResume;
    hide OnAsk, Abort, OnWatch, RemoveSub, OnRefresh, OnReserve, OnRelease, OnClose;
    var s := s0.(env := env);
    ClockKeeps(s0, env, w);
    var v := w.(now := env.now);
    ExtendsItself(s0.log);
    match e {
    case Opened(g) => OnOpenKeeps(s, g, v);
    case Incoming(g, f) =>
      OnFrameKeeps(s, g, f, v);
      ClockTeachesNothing(s0, env, e, v);
      ClockBringsNothing(s0, env, g, f, Step(s0, env, e));
    case Lost(g) => OnLostKeeps(s, g, v);
    case ReconnectDue => OnReconnectDueKeeps(s, v);
    case AttemptDue => AttemptDueKeeps(s0, env, w);
    case RequestDue(id) => ExpireKeeps(s, id, v);
    case RetryDue(id) => OnRetryDueKeeps(s, id, v);
    case PingDue(g) => OnPingKeeps(s, g, v);
    case Suspend => OnSuspendKeeps(s, v);
    case Resume => OnResumeKeeps(s, v);
    case Ask(kind, requestId) => OnAskKeeps(s, kind, requestId, v);
    case AbortCall(id) => AbortKeeps(s, id, v);
    case Watch(query) => OnWatchKeeps(s, query, v);
    case Unwatch(id) => RemoveSubKeeps(s, id, true, v);
    case Refresh(credential) => OnRefreshKeeps(s, credential, v);
    case Reserve(key, size) => ReserveKeeps(s, key, size, v);
    case Release(key) => ReleaseKeeps(s, key, v);
    case Close => OnCloseKeeps(s, v);
    }
    if !e.Incoming? { QuietIsUnanswered(s0.log, Step(s0, env, e)); }
  }

  /** Whatever the server ended, a frame of the current connection brought. */
  ghost predicate BroughtIn(s: State, e: Event, t: State) {
    if e.Incoming? && Listens(s, e.generation, e.frame) then BroughtBy(s, e.frame, t) else Unanswered(s.log, t.log)
  }

  lemma ClockBringsNothing(s: State, env: Env, generation: nat, f: ServerFrame, t: State)
    ensures BroughtBy(s.(env := env), f, t) <==> BroughtBy(s, f, t)
    ensures Listens(s.(env := env), generation, f) <==> Listens(s, generation, f)
  {
    hide AcceptedFrame;
  }

  // -------------------------------------------------------------- whole runs

  datatype Moment = Moment(env: Env, event: Event)

  /** How a client begins. */
  datatype Beginning = Beginning(config: Config, env: Env, credential: Credential, suspended: bool)

  ghost function Run(b: Beginning, ms: seq<Moment>): State {
    if ms == [] then Start(b.config, b.env, b.credential, b.suspended)
    else
      var last := ms[|ms| - 1];
      Step(Run(b, ms[..|ms| - 1]), last.env, last.event)
  }

  /** Every event happens when the platform lets it. */
  ghost predicate Possible(b: Beginning, ms: seq<Moment>) {
    ms != [] ==>
      var before := ms[..|ms| - 1];
      var last := ms[|ms| - 1];
      Possible(b, before) && Enabled(Run(b, before), last.env, last.event)
  }

  predicate HonestRun(truth: Truth, ms: seq<Moment>) {
    forall i | 0 <= i < |ms| :: Honest(truth, ms[i].event)
  }

  /** The time of the last event. */
  function Now(b: Beginning, ms: seq<Moment>): nat {
    if ms == [] then b.env.now else ms[|ms| - 1].env.now
  }

  /** The last receipt of every mutation that has had one. */
  ghost function Promises(b: Beginning, ms: seq<Moment>): map<nat, Promise> {
    if ms == [] then map[]
    else
      var before := ms[..|ms| - 1];
      var w := World(ArbitraryServer, {}, Promises(b, before), None, b.env.now);
      Knowing(Run(b, before), ms[|ms| - 1].event, w).promised
  }

  lemma StartHolds(b: Beginning, truth: Truth)
    ensures Inv(Start(b.config, b.env, b.credential, b.suspended), World(truth, {}, map[], None, b.env.now))
  {
    hide EnsureConnected, Data;
    var s := State(b.config, b.env, false, false, false, 0,
                   false, false, false, b.suspended, false, false,
                   None, 0, 1, 0, b.credential, None, None,
                   map[], map[], 0, 0, map[],
                   Log(map[], map[], map[], {}, [], []));
    NothingHeld(s, World(truth, {}, map[], None, b.env.now));
    EnsureConnectedKeeps(s, World(truth, {}, map[], None, b.env.now));
  }

  /** A client that has done nothing holds nothing. */
  lemma NothingHeld(s: State, w: World)
    requires s.subs == map[] && s.pending == map[] && s.others == map[] && s.items == 0 && s.bytes == 0
    requires s.log == Log(map[], map[], map[], {}, [], []) && s.generation == 0 && !s.socket
    requires w.retired.None? && s.env.now == w.now
    ensures Data(s, w)
  {
    assert SubBytes(map[]) == map[] && RequestBytes(map[]) == map[];
  }

  /** Only requests that were issued have receipts. */
  lemma ReceiptsAreForIssued(s: State, e: Event, w: World, v: World)
    requires Inv(s, w) && v.promised.Keys <= s.log.issued
    ensures var v' := Knowing(s, e, v); v' == v.(promised := v'.promised) && v'.promised.Keys <= s.log.issued
  {
    hide Books, Truthful, Chained, Converges, Timers, Flight, Carried, Endings, Admitted, Linked, Standing, Listens,
         PromiseOf;
  }

  lemma KnowingIsOfReceipts(s: State, e: Event, w: World, v: World)
    requires w.promised == v.promised
    ensures Knowing(s, e, w).promised == Knowing(s, e, v).promised
  {
    hide Listens, PromiseOf, IsReceipt;
  }

  /** What holds at some moment still holds later, of what is then known. */
  lemma {:induction false} RunKeeps(b: Beginning, ms: seq<Moment>, more: seq<Moment>,
                                    truth: Truth, retired: Option<nat>)
    requires Possible(b, ms + more) && HonestRun(truth, ms + more)
    requires Inv(Run(b, ms), World(truth, {}, Promises(b, ms), retired, Now(b, ms)))
    requires Promises(b, ms).Keys <= Run(b, ms).log.issued
    ensures Inv(Run(b, ms + more), World(truth, {}, Promises(b, ms + more), retired, Now(b, ms + more)))
    ensures Promises(b, ms + more).Keys <= Run(b, ms + more).log.issued
    ensures Grows(Run(b, ms).log, Run(b, ms + more).log)
    decreases |more|
  {
    hide Inv, Step, Start, Enabled, Honest, Knowing, Grows;
    if more == [] {
      assert ms + more == ms;
      GrowsItself(Run(b, ms).log);
    } else {
      var shorter := more[..|more| - 1];
      var all := ms + more;
      var last := all[|all| - 1];
      assert all[..|all| - 1] == ms + shorter;
      RunKeeps(b, ms, shorter, truth, retired);
      OneMore(b, ms + shorter, last, truth, retired);
      assert ms + shorter + [last] == all;
      GrowsTransitive(Run(b, ms).log, Run(b, ms + shorter).log, Run(b, all).log);
    }
  }

  lemma OneMore(b: Beginning, ms: seq<Moment>, m: Moment, truth: Truth, retired: Option<nat>)
    requires Enabled(Run(b, ms), m.env, m.event) && Honest(truth, m.event)
    requires Inv(Run(b, ms), World(truth, {}, Promises(b, ms), retired, Now(b, ms)))
    requires Promises(b, ms).Keys <= Run(b, ms).log.issued
    ensures Inv(Run(b, ms + [m]), World(truth, {}, Promises(b, ms + [m]), retired, Now(b, ms + [m])))
    ensures Promises(b, ms + [m]).Keys <= Run(b, ms + [m]).log.issued
    ensures Grows(Run(b, ms).log, Run(b, ms + [m]).log) && Voiced(Run(b, ms).log, Run(b, ms + [m]))
    ensures BroughtIn(Run(b, ms), m.event, Run(b, ms + [m]))
  {
    hide Inv, Step, Start, Enabled, Honest, Knowing, Voiced, BroughtIn;
    var w := World(truth, {}, Promises(b, ms), retired, Now(b, ms));
    assert (ms + [m])[..|ms|] == ms;
    StepKeeps(Run(b, ms), m.env, m.event, w);
    ReceiptsAreForIssued(Run(b, ms), m.event, w, w.(now := m.env.now));
    KnowingIsOfReceipts(Run(b, ms), m.event, w.(now := m.env.now),
                        World(ArbitraryServer, {}, Promises(b, ms), None, b.env.now));
  }

  lemma RunHolds(b: Beginning, ms: seq<Moment>, truth: Truth)
    requires Possible(b, ms) && HonestRun(truth, ms)
    ensures Inv(Run(b, ms), World(truth, {}, Promises(b, ms), None, Now(b, ms)))
    ensures Promises(b, ms).Keys <= Run(b, ms).log.issued
  {
    hide Inv, Step, Start, Enabled, Honest, Knowing, Grows;
    StartHolds(b, truth);
    assert [] + ms == ms;
    RunKeeps(b, [], ms, truth, None);
  }
}
