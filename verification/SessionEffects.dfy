/**
 * What events visibly do, in every run: which callbacks are made, which requests end
 * and how, and which frames go on the wire.
 */
module SessionEffects {
  import opened Basics
  import opened Protocol
  import opened SessionSpec
  import opened SessionInvariants
  import opened SessionAtoms
  import opened SessionConnection
  import opened SessionSending
  import opened SessionFlushing
  import opened SessionLoops
  import opened SessionResending
  import opened SessionTransitions
  import opened SessionEvents
  import opened SessionCalls
  import opened SessionRuns
  import opened SessionTheorems

  /** One more moment of a possible run. */
  ghost predicate Follows(b: Beginning, ms: seq<Moment>, m: Moment) {
    Possible(b, ms) && Enabled(Run(b, ms), m.env, m.event)
  }

  /** The moment brings a frame of the current connection that may come now. */
  ghost predicate Brings(b: Beginning, ms: seq<Moment>, m: Moment, f: ServerFrame) {
    && Follows(b, ms, m)
    && m.event.Incoming? && m.event.frame == f && Listens(Run(b, ms), m.event.generation, f)
  }

  lemma BringsDispatches(b: Beginning, ms: seq<Moment>, m: Moment, f: ServerFrame)
    requires Brings(b, ms, m, f)
    ensures var s := Run(b, ms).(env := m.env);
            && Run(b, ms + [m]) == Dispatch(s, f)
            && Inv(s, World(ArbitraryServer, {}, Promises(b, ms), None, m.env.now))
            && s.socket && AcceptedFrame(s.ready, f) && Follows(b, ms, m)
  {
    hide Inv, Run, Possible, Dispatch, AcceptedFrame, Promises;
    LastStep(b, ms, m);
    RunInvariant(b, ms);
    ClockKeeps(Run(b, ms), m.env, World(ArbitraryServer, {}, Promises(b, ms), None, Now(b, ms)));
  }

  // ----------------------------------------------------------------- requests

  /** One request has ended, in this way, and nothing else has been sent or reported. */
  ghost predicate EndsOnly(s: State, t: State, id: nat, how: Settlement)
    requires id in s.pending
  {
    && t.pending == s.pending - {id}
    && t.log.settled == s.log.settled[id := Settled(s.pending[id].kind, how)]
    && t.log.wire == s.log.wire && t.log.delivered == s.log.delivered
  }

  /** A query's or procedure's result ends it with exactly the answer the frame carries. */
  lemma ResultIsTheAnswer(b: Beginning, ms: seq<Moment>, m: Moment, id: nat, kind: Kind, answer: Answer,
                          receipt: Option<Receipt>)
    requires Brings(b, ms, m, Result(id, kind, answer, receipt)) && id in Run(b, ms).pending
    requires Run(b, ms).pending[id].kind == kind && !kind.Mutation?
    ensures EndsOnly(Run(b, ms), Run(b, ms + [m]), id, Answered(answer))
  {
    hide Inv, Run, Brings, Finish, Follows;
    BringsDispatches(b, ms, m, Result(id, kind, answer, receipt));
    FinishEnds(Run(b, ms).(env := m.env), id, Answered(answer));
  }

  lemma FinishEnds(s: State, id: nat, how: Settlement)
    requires id in s.pending
    ensures var t := Finish(s, id, how);
            && t.pending == s.pending - {id}
            && t.log == s.log.(settled := s.log.settled[id := Settled(s.pending[id].kind, how)])
            && t.subs == s.subs && t.socket == s.socket && t.generation == s.generation
  {
    hide Finish;
    FinishIsFinished(s, id, how);
  }

  /** An error for a request ends it with exactly the code the frame carries. */
  lemma ErrorIsTheEnding(b: Beginning, ms: seq<Moment>, m: Moment, id: nat, e: Error)
    requires Brings(b, ms, m, Failure(Some(id), e)) && id in Run(b, ms).pending
    ensures EndsOnly(Run(b, ms), Run(b, ms + [m]), id, Rejected(ServerError, e.code))
  {
    hide Inv, Run, Brings, Finish, Follows;
    BringsDispatches(b, ms, m, Failure(Some(id), e));
    FinishEnds(Run(b, ms).(env := m.env), id, Rejected(ServerError, e.code));
    NotPresented(Run(b, ms).(env := m.env), id, World(ArbitraryServer, {}, Promises(b, ms), None, m.env.now));
  }

  lemma NotPresented(s: State, id: nat, w: World)
    requires Inv(s, w) && (id in s.pending || id in s.subs)
    ensures !Presents(s, id)
  {
    hide Books, Truthful, Chained, Converges, Timers, Flight, Carried, Endings, Admitted, Linked;
  }

  // -------------------------------------------------------------- transitions

  /** There is room to hold a cursor. */
  predicate RoomFor(s: State, id: nat, to: Cursor)
    requires id in s.subs
  {
    match s.config.measure(SubscribeFrame(id, Some(to)))
    case None => false
    case Some(size) => size <= s.config.maxFrameBytes && s.bytes - s.subs[id].bytes + size <= s.config.maxBytes
  }

  /** A transition starts from the cursor held; a reset may also start from nowhere. */
  predicate StartsFrom(cursor: Option<Cursor>, t: Transition) {
    match t
    case Reset(from, _, _) => from == None || from == cursor
    case ApplicationError(from, _, _) => from != None && from == cursor
    case Update(source, _, _) => cursor == Some(source)
    case Checkpoint(source, _) => cursor == Some(source)
    case Resume(source, _) => cursor == Some(source)
    case Revoked(source, _, _) => cursor == Some(source)
  }

  /** What a transition reports when it is taken. */
  function News(t: Transition): Delivery {
    match t
    case Reset(_, _, value) => Fresh(value)
    case Update(_, _, value) => Fresh(value)
    case ApplicationError(_, _, error) => Refused(error)
    case Revoked(_, _, denial) => Denied(denial)
    case Checkpoint(_, _) => Confirmed
    case Resume(_, _) => Confirmed
  }

  /**
   * What a transition of a query subscription reports, whatever it is: on the cursor
   * held a confirmation, unless a reset is still to come; from the cursor held, or as
   * the reset that was asked for, its own news; otherwise no word about the query.
   */
  ghost predicate Reports(s: State, id: nat, t: Transition, after: seq<Delivery>)
    requires id in s.subs && s.subs[id].stream.Outcomes?
  {
    var q, before := s.subs[id].stream, Delivered(s.log, id);
    if q.cursor == Some(t.to) then
      after == if q.resetRequested && !t.Reset? then before else before + [Confirmed]
    else if (q.resetRequested ==> t.Reset?) && StartsFrom(q.cursor, t) && RoomFor(s, id, t.to) then
      after == before + [News(t)]
    else
      before <= after && forall i | |before| <= i < |after| :: Aside(after[i])
  }

  lemma TransitionIsReported(b: Beginning, ms: seq<Moment>, m: Moment, id: nat, t: Transition)
    requires Brings(b, ms, m, Deliver(id, t)) && id in Run(b, ms).subs && Run(b, ms).subs[id].stream.Outcomes?
    ensures Reports(Run(b, ms), id, t, Delivered(Run(b, ms + [m]).log, id))
  {
    hide Inv, Run, Brings, Follows, ApplyTransition, RoomFor;
    BringsDispatches(b, ms, m, Deliver(id, t));
    var s := Run(b, ms).(env := m.env);
    AcceptedWhenBrought(b, ms, m, id, t);
    SameRoomFor(Run(b, ms), m.env, id, t.to);
    TransitionReported(s, id, t, World(ArbitraryServer, {}, Promises(b, ms), None, m.env.now));
  }

  lemma AcceptedWhenBrought(b: Beginning, ms: seq<Moment>, m: Moment, id: nat, t: Transition)
    requires Brings(b, ms, m, Deliver(id, t))
    ensures AcceptedTransition(t)
  {
    hide Run, Follows, AcceptedTransition;
  }

  lemma SameRoomFor(s: State, env: Env, id: nat, to: Cursor)
    requires id in s.subs
    ensures RoomFor(s.(env := env), id, to) <==> RoomFor(s, id, to)
  {
  }

  lemma TransitionReported(s: State, id: nat, t: Transition, w: World)
    requires Inv(s, w) && w.leaving == {} && w.truth.ArbitraryServer? && AcceptedTransition(t)
    requires id in s.subs && s.subs[id].stream.Outcomes?
    ensures Reports(s, id, t, Delivered(ApplyTransition(s, id, t).log, id))
  {
    hide Inv, Extends, ConfirmHeld, RequestReset, Advance, SettleRetry, AcceptedTransition, RoomFor, Retainable;
    hide PredecessorMatches, StartsFrom, Callback, News;
    SettleRetryKeeps(s, id, w);
    SameRoom(s, id, t.to);
    SameWords(s, id, t);
    ExtendsItself(s.log);
    MutedReports(s.log, s.log, id, t);
    var s1, q := SettleRetry(s, id), s.subs[id].stream;
    if q.cursor == Some(t.to) {
      ConfirmDelivers(s1, id, t.Reset?, t.to.commitVersion);
    } else if !PredecessorMatches(q.cursor, t) {
      RequestResetKeeps(s1, id, w);
      MutedAdds(s.log, RequestReset(s1, id).log, id);
    } else {
      AdvanceReports(s1, id, t, w);
      if !Retainable(s1, id, t.to) {
        AdvanceKeeps(s1, id, t, w);
        MutedAdds(s.log, Advance(s1, id, t).log, id);
      }
    }
  }

  lemma MutedAdds(a: Log, b: Log, id: nat)
    requires Extends(a, b)
    ensures var before, after := Delivered(a, id), Delivered(b, id);
            before <= after && forall i | |before| <= i < |after| :: Aside(after[i])
  {
  }

  lemma SameWords(s: State, id: nat, t: Transition)
    requires id in s.subs
    ensures forall cursor :: StartsFrom(cursor, t) <==> PredecessorMatches(cursor, t)
    ensures RoomFor(s, id, t.to) <==> Retainable(s, id, t.to)
    ensures News(t) == Callback(t)
  {
  }

  // ------------------------------------------------------------- becoming able to send

  /** A frame after which operations may be sent: the welcome, or the answer to a presentation. */
  predicate Enables(s: State, f: ServerFrame) {
    || (f.Welcome? && f.session == s.config.session)
    || (f.AuthAccepted? && s.attempt.Some? && s.attempt.value.id == f.attemptId)
  }

  predicate Able(s: State) {
    s.socket && s.open && s.ready && s.attempt.None?
  }

  /** This connection carries a subscription. */
  ghost predicate Subscribed(s: State, id: nat) {
    exists i :: 0 <= i < |s.log.wire| && s.log.wire[i].generation == s.generation
                && s.log.wire[i].frame.SubscribeFrame? && s.log.wire[i].frame.id == id
  }

  /**
   * A client that becomes able to send puts on the wire, in ascending id, a frame from
   * the cursor held for every subscription that is not waiting and not there yet, and
   * one for every request that is not there yet; overdue requests it ends instead. All
   * that is then outstanding is on the current connection.
   */
  ghost predicate SendsAll(s: State, t: State, now: nat) {
    var subs, requests := ResentSubs(s.subs, s.generation, 0, s.nextId),
                          ResentRequests(s.pending, s.generation, now, 0, s.nextId);
    && t.generation == s.generation && Ascending(subs) && Ascending(requests)
    && t.log.wire == s.log.wire + OnWire(s.generation, subs + requests)
    && (forall k | k in s.subs && !s.subs[k].waiting && s.subs[k].sent != Some(s.generation) ::
          SubscribeFrame(k, ResumeAt(s.subs[k])) in subs)
    && (forall k | k in t.subs && !t.subs[k].waiting :: Subscribed(t, k))
    && (forall k | k in s.pending :: k in t.pending <==> now < s.pending[k].expiresAt)
    && (forall k | k in t.pending :: Transmission(t.generation, Call(k, t.pending[k].kind)) in t.log.wire)
    && (forall k | k in s.pending && s.pending[k].expiresAt <= now ::
          && k in t.log.settled
          && t.log.settled[k] == Settled(s.pending[k].kind, Rejected(Deadline, LateCode(s.pending[k]))))
  }

  lemma AbleMeansAllSent(b: Beginning, ms: seq<Moment>, m: Moment, f: ServerFrame)
    requires Brings(b, ms, m, f) && Enables(Run(b, ms), f) && Able(Run(b, ms + [m]))
    ensures SendsAll(Run(b, ms), Run(b, ms + [m]), m.env.now)
  {
    hide Inv, Run, Brings, Follows, AllSent, ResentSubs, ResentRequests, Flush, Promises;
    var s := Run(b, ms);
    var w := World(ArbitraryServer, {}, Promises(b, ms), None, m.env.now);
    BringsDispatches(b, ms, m, f);
    var x := ToFlush(s.(env := m.env), f, w);
    AbleFlush(x, w);
    IdsBelow(s.(env := m.env), w);
    SentMeans(s, m.env.now, x, Run(b, ms + [m]));
    ResentSubsAscend(s.subs, s.generation, 0, s.nextId);
    ResentRequestsAscend(s.pending, s.generation, m.env.now, 0, s.nextId);
    AllCarried(b, ms, m);
  }

  lemma AbleFlush(x: State, w: World)
    requires Inv(x, w) && Able(Flush(x))
    ensures AllSent(x, Flush(x))
  {
    hide Inv, FlushSubs, FlushRequests, AllSent;
    FlushSends(x, w);
  }

  lemma IdsBelow(s: State, w: World)
    requires Inv(s, w)
    ensures forall k | k in s.subs :: k < s.nextId
    ensures forall k | k in s.pending :: k < s.nextId
  {
    hide Books, Truthful, Chained, Converges, Timers, Flight, Carried, Endings, Admitted, Linked, Standing;
  }

  lemma SentMeans(s: State, now: nat, x: State, t: State)
    requires AllSent(x, t) && x.subs == s.subs && x.pending == s.pending && x.log == s.log
    requires x.generation == s.generation && x.nextId == s.nextId && x.env.now == now
    requires forall k | k in s.pending :: k < s.nextId
    ensures t.generation == s.generation
    ensures t.log.wire == s.log.wire + OnWire(s.generation, ResentSubs(s.subs, s.generation, 0, s.nextId) +
                                                            ResentRequests(s.pending, s.generation, now, 0, s.nextId))
    ensures forall k | k in t.subs && !t.subs[k].waiting :: t.subs[k].sent == Some(t.generation)
    ensures forall k | k in s.pending :: k in t.pending <==> now < s.pending[k].expiresAt
    ensures forall k | k in t.pending :: t.pending[k].sent == Some(t.generation)
    ensures forall k | k in s.pending && s.pending[k].expiresAt <= now ::
              && k in t.log.settled
              && t.log.settled[k] == Settled(s.pending[k].kind, Rejected(Deadline, LateCode(s.pending[k])))
  {
    hide ResentSubs, ResentRequests, OnWire, LateCode;
  }

  /** What a frame that may come now shows at once. */
  ghost predicate Visible(s: State, m: Moment, t: State) {
    m.event.Incoming? && Listens(s, m.event.generation, m.event.frame) ==>
      && (Enables(s, m.event.frame) && Able(t) ==> SendsAll(s, t, m.env.now))
      && match m.event.frame
         case Result(id, kind, answer, _) =>
           id in s.pending && s.pending[id].kind == kind && !kind.Mutation? ==> EndsOnly(s, t, id, Answered(answer))
         case Failure(Some(id), e) => id in s.pending ==> EndsOnly(s, t, id, Rejected(ServerError, e.code))
         case Deliver(id, change) =>
           id in s.subs && s.subs[id].stream.Outcomes? ==> Reports(s, id, change, Delivered(t.log, id))
         case _ => true
  }

  lemma FramesAreVisible(b: Beginning, ms: seq<Moment>, m: Moment)
    requires Follows(b, ms, m)
    ensures Visible(Run(b, ms), m, Run(b, ms + [m]))
  {
    hide Run, Possible, Enabled, EndsOnly, Reports, SendsAll, Able, Enables, Listens;
    var s := Run(b, ms);
    if m.event.Incoming? && Listens(s, m.event.generation, m.event.frame) {
      var f := m.event.frame;
      if Enables(s, f) && Able(Run(b, ms + [m])) { AbleMeansAllSent(b, ms, m, f); }
      match f
      case Result(id, kind, answer, receipt) =>
        if id in s.pending && s.pending[id].kind == kind && !kind.Mutation? {
          ResultIsTheAnswer(b, ms, m, id, kind, answer, receipt);
        }
      case Failure(Some(id), e) => if id in s.pending { ErrorIsTheEnding(b, ms, m, id, e); }
      case Deliver(id, change) =>
        if id in s.subs && s.subs[id].stream.Outcomes? { TransitionIsReported(b, ms, m, id, change); }
      case _ =>
    }
  }

  lemma AllCarried(b: Beginning, ms: seq<Moment>, m: Moment)
    requires Follows(b, ms, m) && Run(b, ms + [m]).socket
    ensures var t := Run(b, ms + [m]);
            && (forall k | k in t.pending && t.pending[k].sent == Some(t.generation) ::
                  Transmission(t.generation, Call(k, t.pending[k].kind)) in t.log.wire)
            && (forall k | k in t.subs && t.subs[k].sent == Some(t.generation) :: Subscribed(t, k))
  {
    hide Run, Enabled, Books, Ledgered, Truthful, Chained, Converges, Timers, Flight, Endings, Linked, Standing;
    hide SessionInvariants.Admitted;
    assert (ms + [m])[..|ms|] == ms;
    assert Possible(b, ms + [m]);
    RunInvariant(b, ms + [m]);
    var t := Run(b, ms + [m]);
    forall k | k in t.pending && t.pending[k].sent == Some(t.generation)
      ensures Transmission(t.generation, Call(k, t.pending[k].kind)) in t.log.wire
    {
      assert RequestCarried(t.log.wire, t.socket, t.generation, k, t.pending[k]);
    }
    forall k | k in t.subs && t.subs[k].sent == Some(t.generation)
      ensures Subscribed(t, k)
    {
      assert SubCarried(t.log.wire, t.socket, t.generation, k, t.subs[k]);
    }
  }

  /** The state that is flushed. */
  lemma ToFlush(s: State, f: ServerFrame, w: World) returns (x: State)
    requires Inv(s, w) && s.socket && Enables(s, f) && AcceptedFrame(s.ready, f) && Able(Dispatch(s, f))
    ensures Inv(x, w) && Dispatch(s, f) == Flush(x)
    ensures x.subs == s.subs && x.pending == s.pending && x.log == s.log && x.generation == s.generation
    ensures x.nextId == s.nextId && x.env == s.env
  {
    hide Inv, Flush, Send;
    ForgetAttemptKeeps(s, w);
    if f.AuthAccepted? {
      x := s.(attempt := None);
    } else {
      BecomeReadyKeeps(s, w);
      var s1 := s.(ready := true, everReady := true, resuming := false);
      ForgetAttemptKeeps(s1, w);
      x := Introduce(s1);
      if s1.attempt.Some? && s1.hello != Some(s1.attempt.value.credential) {
        StillPresenting(s1);
        assert false;
      }
    }
  }

  lemma StillPresenting(s: State)
    requires s.attempt.Some?
    ensures !Able(Flush(SendAuth(s)))
  {
    hide LoseConnection;
    LostHasNoSocket(s);
  }

  // ---------------------------------------------------------------- live events

  /** The event comes right after the last position heard. */
  predicate ComesNext(at: EventCursor, e: LiveEvent) {
    e.at.generation == at.generation && e.at.sequence == at.sequence + 1
  }

  /**
   * A live event is reported unless it is the one heard last; a row that does not come
   * right after the last position is reported as a gap, so no row is skipped silently.
   */
  lemma LiveEventIsReported(b: Beginning, ms: seq<Moment>, m: Moment, id: nat, e: LiveEvent)
    requires Brings(b, ms, m, Live(id, e)) && id in Run(b, ms).subs && Run(b, ms).subs[id].stream.Events?
    ensures var s, t := Run(b, ms), Run(b, ms + [m]);
            var at, before, after := s.subs[id].stream.at, Delivered(s.log, id), Delivered(t.log, id);
            && id in t.subs && t.subs[id].stream == Events(Some(e.at))
            && (at == Some(e.at) ==> after == before)
            && (at != Some(e.at) && e.Row? && at != None && !ComesNext(at.value, e) ==>
                  after == before + [Happened(Gap(e.at))])
            && (at != Some(e.at) && (e.Row? ==> at == None || ComesNext(at.value, e)) ==>
                  after == before + [Happened(e)])
  {
    hide Inv, Run, Brings, Follows, ApplyLive;
    BringsDispatches(b, ms, m, Live(id, e));
    LiveIsHeard(Run(b, ms).(env := m.env), id, e);
  }

  lemma LiveIsHeard(s: State, id: nat, e: LiveEvent)
    requires id in s.subs && s.subs[id].stream.Events?
    ensures var t := ApplyLive(s, id, e);
            var at, before, after := s.subs[id].stream.at, Delivered(s.log, id), Delivered(t.log, id);
            && id in t.subs && t.subs[id].stream == Events(Some(e.at))
            && (at == Some(e.at) ==> after == before)
            && (at != Some(e.at) ==> after == before + [Happened(Heard(at, e))])
  {
    hide Heard, Notify, Delivered;
    var at := s.subs[id].stream.at;
    var s1 := SettleRetry(s, id);
    var s2 := s1.(subs := s1.subs[id := s1.subs[id].(stream := Events(Some(e.at)))]);
    NotifyDelivers(s2, id, Happened(Heard(at, e)));
    NotifyOnlyTells(s2, id, Happened(Heard(at, e)));
    assert s2.log == s.log;
  }

  lemma NotifyOnlyTells(s: State, id: nat, d: Delivery)
    ensures Notify(s, id, d) == s.(log := s.log.(delivered := Notify(s, id, d).log.delivered))
  {
  }

  // ---------------------------------------------------------------------- errors

  /**
   * An error for a subscription is told to it. A retryable one starts a wait, unless no
   * delay can be drawn; any other ends the subscription.
   */
  lemma SubscriptionErrorIsTold(b: Beginning, ms: seq<Moment>, m: Moment, id: nat, e: Error)
    requires Brings(b, ms, m, Failure(Some(id), e)) && id in Run(b, ms).subs
    ensures var s, t := Run(b, ms), Run(b, ms + [m]);
            var before, after := Delivered(s.log, id), Delivered(t.log, id);
            && before + [Trouble(e)] <= after
            && (!e.retryable ==> id !in t.subs && after == before + [Trouble(e)])
            && (e.retryable && m.env.delay != None ==>
                  && after == before + [Trouble(e)] && t.log.settled == s.log.settled
                  && id in t.subs && t.subs[id].waiting && t.subs[id].stream == s.subs[id].stream
                  && (!s.subs[id].waiting ==> t.subs[id].sent == None))
  {
    hide Inv, Run, Brings, Follows, Fail, Discharge;
    BringsDispatches(b, ms, m, Failure(Some(id), e));
    var s, w := Run(b, ms).(env := m.env), World(ArbitraryServer, {}, Promises(b, ms), None, m.env.now);
    NotPresented(s, id, w);
    NotAsked(s, id, w);
    TroubleIsTold(s, id, e, w);
  }

  lemma NotAsked(s: State, id: nat, w: World)
    requires Inv(s, w) && id in s.subs
    ensures id !in s.pending
  {
    hide Books, Truthful, Chained, Converges, Timers, Flight, Carried, Endings, Admitted, Linked, Standing;
  }

  lemma TroubleIsTold(s: State, id: nat, e: Error, w: World)
    requires Inv(s, w) && w.leaving == {} && id in s.subs
    ensures var s1 := Notify(s, id, Trouble(e));
            var t := if e.retryable then ScheduleRetry(s1, id) else RemoveSub(s1, id, false);
            var before, after := Delivered(s.log, id), Delivered(t.log, id);
            && before + [Trouble(e)] <= after
            && (!e.retryable ==> id !in t.subs && after == before + [Trouble(e)])
            && (e.retryable && s.env.delay != None ==>
                  && after == before + [Trouble(e)] && t.log.settled == s.log.settled
                  && id in t.subs && t.subs[id].waiting && t.subs[id].stream == s.subs[id].stream
                  && (!s.subs[id].waiting ==> t.subs[id].sent == None))
  {
    hide Inv, ScheduleRetry, RemoveSub, Notify, Delivered, Extends;
    var s1 := Notify(s, id, Trouble(e));
    SessionSending.SubFrames(s, id, w);
    NotifyKeeps(s, id, Trouble(e), w);
    NotifyOnlyTells(s, id, Trouble(e));
    NotifyDelivers(s, id, Trouble(e));
    if e.retryable { RetryWaits(s1, id, w); } else { RemovalForgets(s1, id); }
  }

  lemma RemovalForgets(s: State, id: nat)
    requires id in s.subs
    ensures var t := RemoveSub(s, id, false); id !in t.subs && Delivered(t.log, id) == Delivered(s.log, id)
  {
    hide Discharge;
    DischargeFrame(Drop(s, id), id, None);
  }

  lemma RetryWaits(s: State, id: nat, w: World)
    requires Inv(s, w) && id in s.subs
    ensures var t := ScheduleRetry(s, id);
            && Delivered(s.log, id) <= Delivered(t.log, id)
            && (s.env.delay != None ==>
                  t.log == s.log && id in t.subs && t.subs[id].waiting && t.subs[id].stream == s.subs[id].stream &&
                  (!s.subs[id].waiting ==> t.subs[id].sent == None))
  {
    hide Inv, ScheduleRetry, Extends, Delivered;
    ScheduleRetryKeeps(s, id, w);
    MutedAdds(s.log, ScheduleRetry(s, id).log, id);
    RetryMarks(s, id);
  }

  lemma RetryMarks(s: State, id: nat)
    requires id in s.subs
    ensures var t := ScheduleRetry(s, id);
            s.env.delay != None ==>
              t.log == s.log && id in t.subs && t.subs[id].waiting && t.subs[id].stream == s.subs[id].stream &&
              (!s.subs[id].waiting ==> t.subs[id].sent == None)
  {
    hide Fail;
    var sub := s.subs[id];
    var s1 := s.(subs := s.subs[id := sub.(sent := None)]);
    assert s1.subs[id] == sub.(sent := None);
    if !sub.waiting && s.env.delay.Some? {
      var later := s1.(subs := s1.subs[id := sub.(sent := None, waiting := true)]);
      assert ScheduleRetry(s, id) == later;
      assert later.subs[id] == sub.(sent := None, waiting := true);
    }
  }

  /** Nothing is left: requests ended alike, subscriptions told alike, no socket and no timer. */
  ghost predicate AllFailed(s: State, t: State, code: Code) {
    && t.failed && !t.socket && t.reconnect == None && t.attempt == None
    && t.pending == map[] && t.subs == map[]
    && (forall id | id in s.pending ::
          id in t.log.settled && t.log.settled[id] == Settled(s.pending[id].kind, Rejected(PermanentFailure, code)))
    && (forall id | id in s.subs ::
          Delivered(t.log, id) == Delivered(s.log, id) + [Trouble(Error(code, false, None))])
    && t.log.wire == s.log.wire
  }

  lemma FailFailsAll(s: State, code: Code)
    requires !s.failed && !s.closed
    ensures AllFailed(s, Fail(s, code), code)
  {
    hide SettleAll, NotifyAll, Total, SubBytes;
    var s1 := SettleAll(s, PermanentFailure, code);
    var d := Trouble(Error(code, false, None));
    SettleAllEnds(s, PermanentFailure, code);
    NotifyAllTells(s1.(failed := true, resuming := false, reconnect := None, attempt := None), d);
  }

  lemma SettleAllEnds(s: State, cause: Cause, code: Code)
    ensures var t := SettleAll(s, cause, code);
            && OnlySettled(s, t) && t.pending == map[]
            && (forall id | id in s.pending ::
                  id in t.log.settled && t.log.settled[id] == Settled(s.pending[id].kind, Rejected(cause, code)))
  {
    hide Total, At, RequestBytes;
    SettleAllFrame(s, cause, code);
    SettleAllEmpties(s, cause, code);
  }

  lemma NotifyAllTells(s: State, d: Delivery)
    ensures var t := NotifyAll(s, d);
            && t == s.(log := s.log.(delivered := t.log.delivered))
            && (forall id | id in s.subs :: Delivered(t.log, id) == Delivered(s.log, id) + [d])
  {
  }

  /** A frame that may not come now, or that does not decode, ends everything as malformed. */
  lemma BadFrameFailsAll(b: Beginning, ms: seq<Moment>, m: Moment)
    requires Follows(b, ms, m) && m.event.Incoming? && Current(Run(b, ms), m.event.generation)
    requires !AcceptedFrame(Run(b, ms).ready, m.event.frame)
    ensures AllFailed(Run(b, ms), Run(b, ms + [m]), Malformed)
  {
    hide Run, Possible, AcceptedFrame, Fail, AllFailed;
    LastStep(b, ms, m);
    ConnectionDiscipline(b, ms);
    FailFailsAll(Run(b, ms).(env := m.env), Malformed);
    FailedAlike(Run(b, ms), m.env, Run(b, ms + [m]), Malformed);
  }

  lemma FailedAlike(s: State, env: Env, t: State, code: Code)
    requires AllFailed(s.(env := env), t, code)
    ensures AllFailed(s, t, code)
  {
  }

  /**
   * An error of the connection that may not be retried ends everything with its code,
   * but one about access only blocks: subscriptions are told and kept.
   */
  lemma ConnectionErrorEnds(b: Beginning, ms: seq<Moment>, m: Moment, e: Error)
    requires Brings(b, ms, m, Failure(None, e)) && !e.retryable
    ensures var s, t := Run(b, ms), Run(b, ms + [m]);
            if e.code !in {Unauthenticated, AuthUnavailable, AuthStale, Unauthorized} then AllFailed(s, t, e.code)
            else
              && t.blocked && !t.failed && !t.socket && t.attempt == None
              && t.pending == map[] && t.subs.Keys == s.subs.Keys
              && (forall id | id in s.pending ::
                    && id in t.log.settled
                    && t.log.settled[id] == Settled(s.pending[id].kind, Rejected(AuthenticationBlocked, e.code)))
              && (forall id | id in s.subs :: Delivered(t.log, id) == Delivered(s.log, id) + [Trouble(e)])
  {
    hide Inv, Run, Possible, Fail, AllFailed, Block;
    BringsDispatches(b, ms, m, Failure(None, e));
    ConnectionUp(b, ms);
    var s := Run(b, ms).(env := m.env);
    FailFailsAll(s, e.code);
    FailedAlike(Run(b, ms), m.env, Fail(s, e.code), e.code);
    BlockEnds(s, e);
  }

  lemma ConnectionUp(b: Beginning, ms: seq<Moment>)
    requires Possible(b, ms)
    ensures Run(b, ms).socket ==> !Halted(Run(b, ms))
  {
    hide Run, Possible;
    ConnectionDiscipline(b, ms);
  }

  lemma BlockEnds(s: State, e: Error)
    ensures var t := Block(s, e);
            && t.blocked && t.failed == s.failed && !t.socket && t.attempt == None
            && t.pending == map[] && t.subs.Keys == s.subs.Keys
            && (forall id | id in s.pending ::
                  && id in t.log.settled
                  && t.log.settled[id] == Settled(s.pending[id].kind, Rejected(AuthenticationBlocked, e.code)))
            && (forall id | id in s.subs :: Delivered(t.log, id) == Delivered(s.log, id) + [Trouble(e)])
  {
    hide SettleAll, NotifyAll;
    SettleAllEnds(s, AuthenticationBlocked, e.code);
    NotifyAllTells(SettleAll(s, AuthenticationBlocked, e.code), Trouble(e));
  }

  // ------------------------------------------------------------------- calls

  /** There is room for one more reservation of what a frame takes. */
  predicate Affords(s: State, f: ClientFrame) {
    match s.config.measure(f)
    case None => false
    case Some(size) =>
      size <= s.config.maxFrameBytes && s.items < s.config.maxItems && s.bytes + size <= s.config.maxBytes
  }

  /** A call the client takes on. */
  predicate TakesCall(s: State, kind: Kind) {
    && !s.closed && !s.failed && !s.blocked && !(kind == Procedure && s.suspended)
    && s.nextId <= MAX_PROTOCOL_ID && Affords(s, Call(s.nextId, kind))
  }

  /**
   * A call is taken on exactly when the client is usable, has an id left and has room
   * for it. Then it is issued, and on the wire at once if the client is able to send.
   */
  lemma CallIsTaken(b: Beginning, ms: seq<Moment>, m: Moment, kind: Kind, requestId: string)
    requires Follows(b, ms, m) && m.event == Ask(kind, requestId)
    ensures var s, t := Run(b, ms), Run(b, ms + [m]);
            && (s.nextId in t.log.issued <==> TakesCall(s, kind))
            && (TakesCall(s, kind) && Able(s) && m.env.sends > 0 ==>
                  && t.log.wire == s.log.wire + [Transmission(s.generation, Call(s.nextId, kind))]
                  && s.nextId in t.pending
                  && t.pending[s.nextId].kind == kind && t.pending[s.nextId].requestId == requestId
                  && t.pending[s.nextId].expiresAt ==
                       m.env.now + (if kind == Mutation then s.config.maxMutationAge else s.config.maxQueryAge))
            && (!TakesCall(s, kind) ==> t.pending == s.pending && t.log == s.log)
  {
    hide Run, Possible, OnAsk, Inv, Promises, TakesCall;
    LastStep(b, ms, m);
    RunHolds(b, ms, ArbitraryServer);
    var s, w := Run(b, ms).(env := m.env), World(ArbitraryServer, {}, Promises(b, ms), None, m.env.now);
    ClockKeeps(Run(b, ms), m.env, World(ArbitraryServer, {}, Promises(b, ms), None, Now(b, ms)));
    NextIdIsNew(s, w);
    SameTakesCall(Run(b, ms), m.env, kind);
    if TakesCall(s, kind) {
      CallTaken(s, kind, requestId, w);
      if Able(s) && s.env.sends > 0 { CallTakenSent(s, kind, requestId); }
    } else {
      CallRefused(s, kind, requestId);
    }
  }

  lemma SameTakesCall(s: State, env: Env, kind: Kind)
    ensures TakesCall(s.(env := env), kind) <==> TakesCall(s, kind)
  {
  }

  lemma CallRefused(s: State, kind: Kind, requestId: string)
    requires !TakesCall(s, kind)
    ensures var t := OnAsk(s, kind, requestId); t.pending == s.pending && t.log == s.log
  {
    hide ConnectAndSend, Asked;
  }

  lemma CallTaken(s: State, kind: Kind, requestId: string, w: World)
    requires Inv(s, w) && TakesCall(s, kind) && s.nextId !in w.promised
    ensures s.nextId in OnAsk(s, kind, requestId).log.issued
  {
    hide Inv, ConnectAndSend, Asked;
    var size := s.config.measure(Call(s.nextId, kind)).value;
    AskedIsIssued(s, Request(kind, size, s.env.now + MaxAge(s.config, kind), s.arms, requestId, None, None), w);
  }

  lemma CallTakenSent(s: State, kind: Kind, requestId: string)
    requires TakesCall(s, kind) && Able(s) && s.env.sends > 0
    ensures var t := OnAsk(s, kind, requestId);
            && t.log.wire == s.log.wire + [Transmission(s.generation, Call(s.nextId, kind))]
            && s.nextId in t.pending
            && t.pending[s.nextId].kind == kind && t.pending[s.nextId].requestId == requestId
            && t.pending[s.nextId].expiresAt ==
                 s.env.now + (if kind == Mutation then s.config.maxMutationAge else s.config.maxQueryAge)
  {
    hide ConnectAndSend, Asked;
    var size := s.config.measure(Call(s.nextId, kind)).value;
    AskedGoesOut(s, Request(kind, size, s.env.now + MaxAge(s.config, kind), s.arms, requestId, None, None));
  }

  lemma AskedIsIssued(s: State, r: Request, w: World)
    requires Inv(s, w) && Usable(s) && !(r.kind.Procedure? && s.suspended) && s.nextId !in w.promised
    requires s.config.measure(Call(s.nextId, r.kind)) == Some(r.bytes) && SessionSpec.Admits(s, r.bytes)
    requires r.armed == s.arms && r.sent.None? && r.pledge.None?
    requires r.kind.Procedure? ==> r.expiresAt <= s.env.now + s.config.maxQueryAge
    ensures s.nextId in ConnectAndSend(Asked(s, r), s.nextId).log.issued
  {
    hide Inv, ConnectAndSend;
    AskedKeeps(s, r, w);
    ConnectThenSend(Asked(s, r), s.nextId, w);
  }

  lemma AskedGoesOut(s: State, r: Request)
    requires r.sent.None? && Able(s) && s.env.sends > 0
    ensures var t := ConnectAndSend(Asked(s, r), s.nextId);
            && t.log.wire == s.log.wire + [Transmission(s.generation, Call(s.nextId, r.kind))]
            && s.nextId in t.pending && t.pending[s.nextId] == r.(sent := Some(s.generation))
  {
    hide EnsureConnected, SendRequest;
    var a := Asked(s, r);
    StaysConnected(a);
    RequestSent(a, s.nextId);
  }

  lemma RequestSent(s: State, id: nat)
    requires Able(s) && s.env.sends > 0 && id in s.pending
    ensures var t := SendRequest(s, id);
            && t.log.wire == s.log.wire + [Transmission(s.generation, Call(id, s.pending[id].kind))]
            && t.pending == s.pending[id := s.pending[id].(sent := Some(s.generation))]
  {
  }

  lemma StaysConnected(s: State)
    requires s.socket
    ensures EnsureConnected(s) == s
  {
  }

  /** A subscription is taken on exactly when there is room, and asked for at once if the client is able to send. */
  lemma WatchIsTaken(b: Beginning, ms: seq<Moment>, m: Moment, query: bool)
    requires Follows(b, ms, m) && m.event == Watch(query)
    ensures var s, t := Run(b, ms), Run(b, ms + [m]);
            var takes := !s.closed && !s.failed && !s.blocked && s.nextId <= MAX_PROTOCOL_ID
                         && Affords(s, SubscribeFrame(s.nextId, None));
            && (!takes ==> t.subs == s.subs && t.log == s.log)
            && (takes && Able(s) && m.env.sends > 0 ==>
                  && t.subs.Keys == s.subs.Keys + {s.nextId}
                  && t.subs[s.nextId].stream == (if query then Outcomes(None, false) else Events(None))
                  && t.log.wire == s.log.wire + [Transmission(s.generation, SubscribeFrame(s.nextId, None))])
  {
    hide Run, Possible, ConnectAndSubscribe, Watched;
    LastStep(b, ms, m);
    var s := Run(b, ms).(env := m.env);
    var f := SubscribeFrame(s.nextId, None);
    if Usable(s) && s.nextId <= MAX_PROTOCOL_ID && Affords(s, f) && Able(s) && s.env.sends > 0 {
      WatchedGoesOut(s, Subscription(f, s.config.measure(f).value, None, false,
                                     if query then Outcomes(None, false) else Events(None)));
    }
  }

  lemma WatchedGoesOut(s: State, sub: Subscription)
    requires Able(s) && s.env.sends > 0
    ensures var t := ConnectAndSubscribe(Watched(s, sub), s.nextId);
            && t.subs.Keys == s.subs.Keys + {s.nextId} && t.subs[s.nextId].stream == sub.stream
            && t.log.wire == s.log.wire + [Transmission(s.generation, sub.frame)]
  {
    hide EnsureConnected, SendSub;
    StaysConnected(Watched(s, sub));
    SubSent(Watched(s, sub), s.nextId);
  }

  lemma SubSent(s: State, id: nat)
    requires Able(s) && s.env.sends > 0 && id in s.subs
    ensures var t := SendSub(s, id);
            && t.log.wire == s.log.wire + [Transmission(s.generation, s.subs[id].frame)]
            && t.subs == s.subs[id := s.subs[id].(sent := Some(s.generation))]
  {
  }

  /** A subscription given up is gone, and the server is told if the client is able to send. */
  lemma UnwatchIsTold(b: Beginning, ms: seq<Moment>, m: Moment, id: nat)
    requires Follows(b, ms, m) && m.event == Unwatch(id) && id in Run(b, ms).subs
    ensures var s, t := Run(b, ms), Run(b, ms + [m]);
            && id !in t.subs
            && (Able(s) && m.env.sends > 0 ==>
                  t.subs == s.subs - {id} && t.log.wire == s.log.wire + [Transmission(s.generation, Unsubscribe(id))])
  {
    hide Run, Possible, RemoveSub;
    LastStep(b, ms, m);
    RemovalIsTold(Run(b, ms).(env := m.env), id);
  }

  lemma RemovalIsTold(s: State, id: nat)
    requires id in s.subs
    ensures var t := RemoveSub(s, id, true);
            && id !in t.subs
            && (Able(s) && s.env.sends > 0 ==>
                  t.subs == s.subs - {id} && t.log.wire == s.log.wire + [Transmission(s.generation, Unsubscribe(id))])
  {
    hide Discharge, Drop, Send, Shrinks;
    var s1 := Drop(s, id);
    DropForgets(s, id);
    var s2 := if CanSend(s1) then Send(s1, Unsubscribe(id)) else s1;
    SendAfterwards(s1, Unsubscribe(id));
    DischargeFrame(s2, id, None);
    if Able(s) && s.env.sends > 0 { FrameSent(s1, Unsubscribe(id)); }
  }

  lemma DropForgets(s: State, id: nat)
    requires id in s.subs
    ensures var t := Drop(s, id);
            t.subs == s.subs - {id} && t == s.(subs := t.subs, items := t.items, bytes := t.bytes)
  {
  }

  lemma FrameSent(s: State, f: ClientFrame)
    requires s.socket && s.open && s.env.sends > 0
    ensures var t := Send(s, f);
            t == s.(env := t.env, log := s.log.(wire := s.log.wire + [Transmission(s.generation, f)]))
  {
  }

  // ------------------------------------------------------------------ deadlines

  /**
   * A request past its deadline ends with what is known of whether it ran; a procedure
   * on the current connection is cancelled there if the client is able to send.
   */
  lemma DeadlineEnds(b: Beginning, ms: seq<Moment>, m: Moment, id: nat)
    requires Follows(b, ms, m) && m.event == RequestDue(id)
    ensures var s, t := Run(b, ms), Run(b, ms + [m]);
            var inFlight := s.pending[id].kind == Procedure && s.pending[id].sent == Some(s.generation) && Able(s);
            && id in t.log.settled && id !in t.pending
            && (!inFlight || m.env.sends > 0 ==>
                  && t.log.settled ==
                     s.log.settled[id := Settled(s.pending[id].kind, Rejected(Deadline, LateCode(s.pending[id])))]
                  && t.log.wire == s.log.wire + (if inFlight then [Transmission(s.generation, Cancel(id))] else []))
  {
    hide Run, Possible, Expire, LateCode;
    LastStep(b, ms, m);
    ExpireEnds(Run(b, ms).(env := m.env), id);
    GoneIsSettled(b, ms, m, id);
  }

  lemma ExpireEnds(s: State, id: nat)
    requires id in s.pending
    ensures var t := Expire(s, id);
            var inFlight := s.pending[id].kind == Procedure && s.pending[id].sent == Some(s.generation) && Able(s);
            && id !in t.pending
            && (!inFlight || s.env.sends > 0 ==>
                  && t.log.settled ==
                     s.log.settled[id := Settled(s.pending[id].kind, Rejected(Deadline, LateCode(s.pending[id])))]
                  && t.log.wire == s.log.wire + (if inFlight then [Transmission(s.generation, Cancel(id))] else []))
  {
    hide Finish, Send;
    var s1, how := SendCancel(s, id), Rejected(Deadline, ExpiryCode(s.pending[id]));
    FinishFrame(s1, id, how);
    if s.socket && s.open && s.env.sends > 0 { FrameSent(s, Cancel(id)); }
    if id in s1.pending { FinishEnds(s1, id, how); }
  }

  // ----------------------------------------------------------------- connection

  /**
   * Losing the connection ends the procedures that are on it, as indeterminate, and
   * nothing else: every other request and every subscription is kept, queries with
   * their cursors, and the next dial is scheduled.
   */
  lemma LossEndsOnlyInFlight(b: Beginning, ms: seq<Moment>, m: Moment, g: nat)
    requires Follows(b, ms, m) && m.event == Lost(g) && Current(Run(b, ms), g) && m.env.delay != None
    ensures var s, t := Run(b, ms), Run(b, ms + [m]);
            && !t.socket && t.reconnect == Some(m.env.now + m.env.delay.value)
            && t.subs.Keys == s.subs.Keys
            && (forall id | id in s.subs && s.subs[id].stream.Outcomes? :: t.subs[id] == s.subs[id])
            && (forall id | id in s.subs && s.subs[id].stream.Events? :: t.subs[id].stream == Events(None))
            && (forall id | id in s.pending ::
                  if s.pending[id].kind == Procedure && s.pending[id].sent == Some(g)
                  then id !in t.pending && id in t.log.settled &&
                       t.log.settled[id] == Settled(Procedure, Rejected(ConnectionLost, Indeterminate))
                  else id in t.pending && t.pending[id] == s.pending[id])
            && t.log.wire == s.log.wire && t.log.delivered == s.log.delivered
  {
    hide Run, Possible, LoseConnection;
    LastStep(b, ms, m);
    ConnectionUp(b, ms);
    SocketHasNoTimer(b, ms);
    LossEnds(Run(b, ms).(env := m.env));
  }

  lemma SocketHasNoTimer(b: Beginning, ms: seq<Moment>)
    requires Possible(b, ms) && Run(b, ms).socket
    ensures Run(b, ms).reconnect == None
  {
    hide Run, Possible;
    ConnectionDiscipline(b, ms);
  }

  lemma LossEnds(s: State)
    requires !Halted(s) && s.reconnect == None && s.env.delay != None
    ensures var t := LoseConnection(s);
            && !t.socket && t.reconnect == Some(s.env.now + s.env.delay.value)
            && t.subs == ForgetEvents(s.subs)
            && (forall id | id in s.pending ::
                  if s.pending[id].kind == Procedure && s.pending[id].sent == Some(s.generation)
                  then id !in t.pending && id in t.log.settled &&
                       t.log.settled[id] == Settled(Procedure, Rejected(ConnectionLost, Indeterminate))
                  else id in t.pending && t.pending[id] == s.pending[id])
            && t.log.wire == s.log.wire && t.log.delivered == s.log.delivered
  {
    hide SettleInFlight, ForgetEvents, Fail;
    SettleInFlightFrame(s);
    InFlightEnds(s);
  }

  lemma InFlightEnds(s: State)
    ensures var t := SettleInFlight(s);
            forall id | id in s.pending ::
              if s.pending[id].kind == Procedure && s.pending[id].sent == Some(s.generation)
              then id !in t.pending && id in t.log.settled &&
                   t.log.settled[id] == Settled(Procedure, Rejected(ConnectionLost, Indeterminate))
              else id in t.pending && t.pending[id] == s.pending[id]
  {
    hide Total, At, RequestBytes;
  }

  /** A reconnect that is due dials, unless the server asked to wait longer or no socket can be made. */
  lemma ReconnectDials(b: Beginning, ms: seq<Moment>, m: Moment)
    requires Follows(b, ms, m) && m.event == ReconnectDue && !Halted(Run(b, ms))
    ensures var s, t := Run(b, ms), Run(b, ms + [m]);
            && (s.notBefore <= m.env.now && m.env.dial ==>
                  t.socket && t.generation == s.generation + 1 && t.reconnect == None && t.log.wire == s.log.wire)
            && (!(s.notBefore <= m.env.now && m.env.dial) && m.env.delay != None ==>
                  !t.socket && t.generation == s.generation && t.reconnect == Some(m.env.now + m.env.delay.value))
  {
    hide Run, Possible, Fail;
    LastStep(b, ms, m);
    ConnectionDiscipline(b, ms);
  }

  /** A connection that opens is greeted with the current credential. */
  lemma OpeningSaysHello(b: Beginning, ms: seq<Moment>, m: Moment, g: nat)
    requires Follows(b, ms, m) && m.event == Opened(g) && Current(Run(b, ms), g) && m.env.sends > 0
    requires Fits(Run(b, ms).config, Hello(Run(b, ms).credential))
    ensures var s, t := Run(b, ms), Run(b, ms + [m]);
            t.open && t.socket && t.log.wire == s.log.wire + [Transmission(g, Hello(s.credential))]
  {
    hide Run, Possible, LoseConnection;
    LastStep(b, ms, m);
    ConnectionUp(b, ms);
  }

  /** A new credential is presented at once on a ready connection. */
  lemma RefreshIsPresented(b: Beginning, ms: seq<Moment>, m: Moment, credential: Credential)
    requires Follows(b, ms, m) && m.event == Refresh(credential) && !Run(b, ms).closed && !Run(b, ms).failed
    requires Run(b, ms).attempt.Some? ==> Run(b, ms).attempt.value.credential != credential
    requires Run(b, ms).nextId <= MAX_PROTOCOL_ID && Fits(Run(b, ms).config, Auth(Run(b, ms).nextId, credential))
    requires Run(b, ms).socket && Run(b, ms).open && Run(b, ms).ready && m.env.sends > 0
    ensures var s, t := Run(b, ms), Run(b, ms + [m]);
            && t.credential == credential && t.attempt.Some?
            && t.attempt.value.id == s.nextId && t.attempt.value.credential == credential
            && t.attempt.value.expiresAt == m.env.now + s.config.maxQueryAge && !t.blocked
            && t.log.wire == s.log.wire + [Transmission(s.generation, Auth(s.nextId, credential))]
  {
    hide Run, Possible, Send;
    LastStep(b, ms, m);
    var s := Run(b, ms).(env := m.env, nextId := Run(b, ms).nextId + 1);
    FrameSent(Present(s, Run(b, ms).nextId, credential), Auth(Run(b, ms).nextId, credential));
  }

  /** Closing ends every request, those never put on a connection as certainly not run. */
  lemma ClosingEndsAll(b: Beginning, ms: seq<Moment>, m: Moment)
    requires Follows(b, ms, m) && m.event == Close && !Run(b, ms).closed
    ensures var s, t := Run(b, ms), Run(b, ms + [m]);
            && t.closed && !t.socket && t.reconnect == None && t.pending == map[] && t.subs == map[]
            && (forall id | id in s.pending ::
                  && id in t.log.settled
                  && t.log.settled[id] == Settled(s.pending[id].kind, Rejected(ClientClosed, GivenUp(s.pending[id]))))
  {
    hide Run, Possible, SettleClosed, DropAll;
    LastStep(b, ms, m);
    ClosedEnds(Run(b, ms).(env := m.env));
    DropsAll(SettleClosed(Run(b, ms).(env := m.env)));
  }

  /** How a request given up by the client itself ends. */
  function GivenUp(r: Request): Code {
    if r.sent != None && r.kind != Query then Indeterminate else Unavailable
  }

  lemma DropsAll(s: State)
    ensures var t := DropAll(s); t.subs == map[] && t.pending == s.pending && t.log == s.log
  {
  }

  lemma ClosedEnds(s: State)
    ensures var t := SettleClosed(s);
            && t.pending == map[]
            && (forall id | id in s.pending ::
                  && id in t.log.settled
                  && t.log.settled[id] == Settled(s.pending[id].kind, Rejected(ClientClosed, GivenUp(s.pending[id]))))
  {
    hide Settle;
    var done := map id | id in s.pending :: Rejected(ClientClosed, AbandonCode(s.pending[id]));
    SettleEverything(s, done);
    SettleEnds(s, done);
  }

  lemma SettleEnds(s: State, done: map<nat, Settlement>)
    requires done.Keys <= s.pending.Keys
    ensures var t := Settle(s, done);
            forall id | id in done :: id in t.log.settled && t.log.settled[id] == Settled(s.pending[id].kind, done[id])
  {
    hide Total, At, RequestBytes;
  }

  /** Suspending ends every procedure, and leaves neither socket nor timer. */
  lemma SuspensionEndsProcedures(b: Beginning, ms: seq<Moment>, m: Moment)
    requires Follows(b, ms, m) && m.event == Suspend && !Run(b, ms).closed && !Run(b, ms).suspended
    ensures var s, t := Run(b, ms), Run(b, ms + [m]);
            && t.suspended && !t.socket && t.reconnect == None
            && (forall id | id in s.pending && s.pending[id].kind == Procedure ::
                  id !in t.pending && id in t.log.settled)
  {
    hide Run, Enabled, Possible, OnSuspend, Grows;
    LastStep(b, ms, m);
    StepSuspends(Run(b, ms), m.env);
    SuspendedStands(Run(b, ms).(env := m.env));
    forall id | id in Run(b, ms).pending && id !in Run(b, ms + [m]).pending
      ensures id in Run(b, ms + [m]).log.settled
    {
      GoneIsSettled(b, ms, m, id);
    }
  }

  lemma GoneIsSettled(b: Beginning, ms: seq<Moment>, m: Moment, id: nat)
    requires Follows(b, ms, m) && id in Run(b, ms).pending && id !in Run(b, ms + [m]).pending
    ensures id in Run(b, ms + [m]).log.settled
  {
    hide Run, Enabled;
    assert (ms + [m])[..|ms|] == ms;
    assert Possible(b, ms + [m]);
    RecordGrows(b, ms, [m]);
    EveryRequestAccounted(b, ms);
    EveryRequestAccounted(b, ms + [m]);
  }

  lemma StepSuspends(s: State, env: Env)
    ensures Step(s, env, Suspend) == OnSuspend(s.(env := env))
  {
    hide OnSuspend;
  }

  lemma SuspendedStands(s: State)
    requires !s.closed && !s.suspended
    ensures var t := OnSuspend(s);
            && t.suspended && !t.socket && t.reconnect == None
            && Shrinks(s.pending, t.pending)
            && (forall id | id in t.pending :: t.pending[id].kind != Procedure)
  {
    hide CancelInFlight, SettleProcedures;
    CancellingShrinks(s, 0, s.nextId);
    ProceduresGone(CancelInFlight(s, 0, s.nextId));
  }

  lemma ProceduresGone(s: State)
    ensures OnlySettled(s, SettleProcedures(s)) && Shrinks(s.pending, SettleProcedures(s).pending)
    ensures forall id | id in SettleProcedures(s).pending :: SettleProcedures(s).pending[id].kind != Procedure
  {
    hide Settle, OnlySettled;
    var done := map id | id in s.pending && s.pending[id].kind.Procedure?
                  :: Rejected(Suspension, AbandonCode(s.pending[id]));
    SettleFrame(s, done);
    WithoutProcedures(s.pending, done.Keys);
  }

  lemma WithoutProcedures(pending: map<nat, Request>, done: set<nat>)
    requires forall id | id in pending && pending[id].kind.Procedure? :: id in done
    ensures Shrinks(pending, pending - done)
    ensures forall id | id in pending - done :: (pending - done)[id].kind != Procedure
  {
  }

  lemma {:induction false} CancellingShrinks(s: State, id: nat, end: nat)
    ensures Shrinks(s.pending, CancelInFlight(s, id, end).pending)
    decreases end - id
  {
    hide SendCancel;
    if id < end {
      CancelShrinks(s, id);
      CancellingShrinks(SendCancel(s, id), id + 1, end);
    }
  }

  lemma CancelShrinks(s: State, id: nat)
    ensures Shrinks(s.pending, SendCancel(s, id).pending)
  {
    hide Send;
    SendAfterwards(s, Cancel(id));
  }
}
