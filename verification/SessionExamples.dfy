/**
 * Runs of the client over a calm connection, step by step: what shows that a
 * property fails, or that a run with a property exists.
 */
module SessionExamples {
  import opened Basics
  import opened Protocol
  import opened SessionSpec
  import opened SessionLoops
  import opened SessionRuns

  const CALM := Env(0, 9, true, Some(1))

  function Small(): Config {
    Config("s", 9, 9, 9, 1, 1, 1, f => Some(1))
  }

  function AtFirst(): Beginning {
    Beginning(Small(), CALM, Anonymous, false)
  }

  /** Connected, with nothing outstanding but subscriptions that follow live queries. */
  ghost predicate Calm(s: State, n: nat) {
    && s.config == Small() && s.env.now == 0
    && s.socket && s.open && s.ready && s.generation == 1 && Usable(s) && !s.suspended && s.attempt.None?
    && s.pending == map[] && s.items == |s.subs| <= n && s.bytes == |s.subs| && n <= 2 && s.nextId == n + 1
    && (forall id | id in s.subs :: 0 < id <= n && s.subs[id].bytes == 1 && s.subs[id].stream.Outcomes?)
    && (forall id | n < id :: Delivered(s.log, id) == [])
  }

  lemma NotDeliveredYet(s: State, n: nat, id: nat)
    requires Calm(s, n) && n < id
    ensures Delivered(s.log, id) == []
  {
  }

  /** A subscription without an outstanding demand for a reset. */
  predicate Holding(s: State, id: nat, cursor: Option<Cursor>) {
    id in s.subs && s.subs[id].stream == Outcomes(cursor, false)
  }

  lemma Begins()
    ensures var s := Run(AtFirst(), []);
            && s.socket && s.generation == 1 && Usable(s) && !s.suspended && s.attempt.None? && s.config == Small()
            && s.env.now == 0 && !s.ready && s.nextId == 1
            && s.pending == map[] && s.subs == map[] && s.items == 0 && s.bytes == 0 && s.log.delivered == map[]
  {
  }

  lemma Opens(s: State)
    requires s.socket && s.generation == 1 && Usable(s) && s.config == Small()
    ensures Step(s, CALM, Opened(1)) ==
              s.(env := CALM.(sends := 8), open := true, hello := Some(s.credential),
                 log := s.log.(wire := s.log.wire + [Transmission(1, Hello(s.credential))]))
  {
  }

  lemma Welcomes(s: State)
    requires s.socket && s.open && s.generation == 1 && Usable(s) && s.attempt.None? && s.config == Small()
    requires !s.ready && s.nextId == 1 && s.subs == map[] && s.pending == map[]
    ensures Step(s, CALM, Incoming(1, Welcome("s"))) ==
              s.(env := CALM, ready := true, everReady := true, resuming := false)
  {
    var t := s.(env := CALM, ready := true, everReady := true, resuming := false);
    assert FlushSubs(t, 0, 1) == FlushSubs(t, 1, 1) == t;
    assert FlushRequests(t, 0, 1) == FlushRequests(t, 1, 1) == t;
  }

  ghost function Subscribed(s: State): State {
    var f := SubscribeFrame(s.nextId, None);
    s.(env := CALM.(sends := 8), nextId := s.nextId + 1,
       subs := s.subs[s.nextId := Subscription(f, 1, Some(1), false, Outcomes(None, false))],
       items := s.items + 1, bytes := s.bytes + 1,
       log := s.log.(wire := s.log.wire + [Transmission(1, f)]))
  }

  lemma AlreadyConnected(s: State)
    requires s.socket
    ensures EnsureConnected(s) == s
  {
  }

  lemma SubscribesTo(s: State, n: nat)
    requires Calm(s, n) && n < 2
    ensures Accepts(s.(env := CALM)) && Step(s, CALM, Watch(true)) == Subscribed(s.(env := CALM))
  {
    hide ConnectAndSubscribe;
    SendsAtOnce(s.(env := CALM));
    assert Step(s, CALM, Watch(true)) == ConnectAndSubscribe(Watched(s.(env := CALM), Unsent(s.nextId)), s.nextId);
  }

  function Unsent(id: nat): Subscription {
    Subscription(SubscribeFrame(id, None), 1, None, false, Outcomes(None, false))
  }

  lemma SendsAtOnce(s: State)
    requires s.socket && s.open && s.ready && s.generation == 1 && s.attempt.None? && s.env == CALM
    ensures ConnectAndSubscribe(Watched(s, Unsent(s.nextId)), s.nextId) == Subscribed(s)
  {
    hide EnsureConnected;
    var id, sub := s.nextId, Unsent(s.nextId);
    AlreadyConnected(Watched(s, sub));
    assert s.subs[id := sub][id := sub.(sent := Some(1))] == s.subs[id := sub.(sent := Some(1))];
  }

  lemma Subscribes(s: State, n: nat)
    requires Calm(s, n) && n < 2
    ensures Accepts(s.(env := CALM))
    ensures var t := Step(s, CALM, Watch(true));
            && Calm(t, n + 1) && Holding(t, n + 1, None) && t.log.delivered == s.log.delivered
  {
    hide Step, Accepts;
    SubscribesTo(s, n);
    SizeAdd(s.subs, s.nextId, Unsent(s.nextId).(sent := Some(1)));
    forall id | n + 1 < id
      ensures Delivered(Subscribed(s.(env := CALM)).log, id) == []
    {
      NotDeliveredYet(s, n, id);
    }
  }

  lemma NothingToDischarge(s: State, id: nat, upTo: Option<nat>)
    requires s.pending == map[]
    ensures Discharge(s, id, upTo) == s
  {
    assert Converging(s.pending, id, upTo) == map[];
    assert SessionSpec.RequestBytes(s.pending) == map[];
    assert Basics.At(map[], {}) == map[];
    TotalNone();
  }

  ghost function Told(s: State, id: nat, t: Transition): State
    requires id in s.subs
  {
    var f := SubscribeFrame(id, Some(t.to));
    s.(env := CALM,
       subs := s.subs[id := s.subs[id].(frame := f, bytes := 1, waiting := false,
                                        stream := Outcomes(Some(t.to), false))],
       log := s.log.(held := s.log.held[id := HeldBy(s.log, id) + [Held(t.to, t.Reset? || t.Revoked?)]],
                     delivered := s.log.delivered[id := Delivered(s.log, id) + [SessionSpec.Callback(t)]]))
  }

  lemma Tells(s: State, n: nat, id: nat, cursor: Option<Cursor>, t: Transition)
    requires Calm(s, n) && Holding(s, id, cursor)
    requires AcceptedTransition(t) && PredecessorMatches(cursor, t) && cursor != Some(t.to)
    ensures Step(s, CALM, Incoming(1, Deliver(id, t))) == Told(s.(env := CALM), id, t)
  {
    hide Advance, SessionSpec.Callback, SettleRetry, Told, ApplyTransition;
    var s1 := s.(env := CALM);
    Applies(s1, id, cursor, t);
    Settles(s1, id, t);
    AdvancesTo(SettleRetry(s1, id), id, t);
    assert Step(s, CALM, Incoming(1, Deliver(id, t))) == ApplyTransition(s1, id, t);
  }

  lemma Applies(s: State, id: nat, cursor: Option<Cursor>, t: Transition)
    requires Holding(s, id, cursor) && PredecessorMatches(cursor, t) && cursor != Some(t.to)
    ensures id in SettleRetry(s, id).subs && SettleRetry(s, id).subs[id].stream.Outcomes?
    ensures ApplyTransition(s, id, t) == Advance(SettleRetry(s, id), id, t)
  {
    hide Advance, PredecessorMatches;
  }

  lemma Settles(s: State, id: nat, t: Transition)
    requires id in s.subs && s.env == CALM
    ensures var u := SettleRetry(s, id);
            && u == s.(subs := u.subs) && id in u.subs && u.subs[id] == s.subs[id].(waiting := false)
            && Told(u, id, t) == Told(s, id, t) == Told(s.(env := CALM), id, t)
  {
    hide SessionSpec.Callback;
    var u := SettleRetry(s, id);
    assert Told(u, id, t).subs == Told(s, id, t).subs;
  }

  lemma AdvancesTo(s: State, id: nat, t: Transition)
    requires s.config == Small() && s.env == CALM && s.pending == map[]
    requires id in s.subs && s.subs[id].stream.Outcomes? && s.subs[id].bytes == 1 && !s.subs[id].waiting && s.bytes <= 9
    ensures Advance(s, id, t) == Told(s, id, t)
  {
    hide Discharge, SessionSpec.Callback, Retain, Retainable;
    RetainsTo(s, id, t);
    NothingToDischarge(Notify(Retain(s, id, t), id, SessionSpec.Callback(t)), id, Some(t.to.commitVersion));
  }

  lemma RetainsTo(s: State, id: nat, t: Transition)
    requires s.config == Small() && s.env == CALM
    requires id in s.subs && s.subs[id].stream.Outcomes? && s.subs[id].bytes == 1 && !s.subs[id].waiting && s.bytes <= 9
    ensures Retainable(s, id, t.to)
    ensures Retain(s, id, t) == s.(subs := Told(s, id, t).subs, log := s.log.(held := Told(s, id, t).log.held))
  {
    hide SessionSpec.Callback;
  }

  /** A transition that follows on the cursor held is delivered. */
  lemma Delivers(s: State, n: nat, id: nat, cursor: Option<Cursor>, t: Transition)
    requires Calm(s, n) && Holding(s, id, cursor)
    requires AcceptedTransition(t) && PredecessorMatches(cursor, t) && cursor != Some(t.to)
    ensures var u := Step(s, CALM, Incoming(1, Deliver(id, t)));
            && Calm(u, n) && Holding(u, id, Some(t.to))
            && u.log.delivered == s.log.delivered[id := Delivered(s.log, id) + [SessionSpec.Callback(t)]]
  {
    hide Step, SessionSpec.Callback, AcceptedTransition, PredecessorMatches;
    Tells(s, n, id, cursor, t);
    assert Told(s.(env := CALM), id, t).subs.Keys == s.subs.Keys;
    forall k | n < k
      ensures Delivered(Told(s.(env := CALM), id, t).log, k) == []
    {
      NotDeliveredYet(s, n, k);
    }
  }

  lemma OneMoreMoment(ms: seq<Moment>, m: Moment)
    ensures Run(AtFirst(), ms + [m]) == Step(Run(AtFirst(), ms), m.env, m.event)
  {
    hide Step, SessionSpec.Start;
    assert (ms + [m])[..|ms|] == ms;
  }

  ghost function Unwatched(s: State, id: nat): State {
    s.(env := CALM.(sends := 8), subs := s.subs - {id}, items := s.items - 1, bytes := s.bytes - 1,
       log := s.log.(wire := s.log.wire + [Transmission(1, Unsubscribe(id))]))
  }

  lemma UnwatchesTo(s: State, n: nat, id: nat, cursor: Option<Cursor>)
    requires Calm(s, n) && Holding(s, id, cursor)
    ensures Step(s, CALM, Unwatch(id)) == Unwatched(s, id)
  {
    hide Discharge;
    NothingToDischarge(Unwatched(s, id), id, None);
  }

  /** A subscription the application gives up is gone, and hears nothing of it. */
  lemma Unwatches(s: State, n: nat, id: nat, cursor: Option<Cursor>)
    requires Calm(s, n) && Holding(s, id, cursor)
    ensures var t := Step(s, CALM, Unwatch(id)); Calm(t, n) && t.log.delivered == s.log.delivered
  {
    hide Step;
    UnwatchesTo(s, n, id, cursor);
    SizeSplit(s.subs, {id});
    forall k | n < k
      ensures Delivered(Unwatched(s, id).log, k) == []
    {
      NotDeliveredYet(s, n, k);
    }
  }

  /** The moments after which a client is connected. */
  function Greeting(): seq<Moment> {
    [Moment(CALM, Opened(1)), Moment(CALM, Incoming(1, Welcome("s")))]
  }

  lemma Connected()
    ensures Possible(AtFirst(), Greeting()) && Calm(Run(AtFirst(), Greeting()), 0)
  {
    hide Step;
    var b, first, second := AtFirst(), Greeting()[0], Greeting()[1];
    Begins();
    Opens(Run(b, []));
    OneMoreMoment([], first);
    Welcomes(Run(b, [] + [first]));
    OneMoreMoment([] + [first], second);
    assert Greeting() == [] + [first] + [second];
    PossibleMore([], first);
    PossibleMore([] + [first], second);
  }

  lemma PossibleMore(ms: seq<Moment>, m: Moment)
    requires Possible(AtFirst(), ms) && Enabled(Run(AtFirst(), ms), m.env, m.event)
    ensures Possible(AtFirst(), ms + [m])
  {
    hide Run, Enabled;
    assert (ms + [m])[..|ms|] == ms;
  }

  // ------------------------------------------------- an error before any value

  lemma ErrorAsksForReset(s: State, n: nat, id: nat, c: Cursor, error: Payload)
    requires Calm(s, n) && Holding(s, id, None)
    ensures var t := Step(s, CALM, Incoming(1, Deliver(id, ApplicationError(None, c, error))));
            && t.log.delivered == s.log.delivered
            && id in t.subs && t.subs[id].stream == Outcomes(None, true)
  {
    hide RequestReset, ConfirmHeld, Advance;
    var s1 := SettleRetry(s.(env := CALM), id);
    AsksForReset(s1, id);
    assert Step(s, CALM, Incoming(1, Deliver(id, ApplicationError(None, c, error)))) == RequestReset(s1, id);
  }

  lemma AsksForReset(s: State, id: nat)
    requires Holding(s, id, None) && CanSend(s) && s.env == CALM
    ensures var t := RequestReset(s, id);
            && t.log.delivered == s.log.delivered
            && id in t.subs && t.subs[id].stream == Outcomes(None, true)
  {
  }

  /**
   * A query whose first outcome is an application error: the server reports it with
   * no predecessor, and the client, which holds no cursor, asks for a reset and
   * tells the caller nothing.
   */
  lemma FirstErrorIsNotShown(c: Cursor, error: Payload) returns (ms: seq<Moment>, id: nat)
    ensures Possible(AtFirst(), ms) && ms != []
    ensures ms[|ms| - 1].event == Incoming(1, Deliver(id, ApplicationError(None, c, error)))
    ensures var before, after := Run(AtFirst(), ms[..|ms| - 1]), Run(AtFirst(), ms);
            && Listens(before, 1, ms[|ms| - 1].event.frame) && Holding(before, id, None)
            && id in after.subs && after.subs[id].stream == Outcomes(None, true)
            && Delivered(after.log, id) == []
  {
    hide Step, Run, Possible;
    var watch := Moment(CALM, Watch(true));
    var fails := Moment(CALM, Incoming(1, Deliver(1, ApplicationError(None, c, error))));
    Connected();
    Subscribes(Run(AtFirst(), Greeting()), 0);
    NotDeliveredYet(Run(AtFirst(), Greeting()), 0, 1);
    PossibleMore(Greeting(), watch);
    OneMoreMoment(Greeting(), watch);
    var watched := Greeting() + [watch];
    ErrorAsksForReset(Run(AtFirst(), watched), 1, 1, c, error);
    PossibleMore(watched, fails);
    OneMoreMoment(watched, fails);
    ms, id := watched + [fails], 1;
    assert ms[..|ms| - 1] == watched;
  }
}
