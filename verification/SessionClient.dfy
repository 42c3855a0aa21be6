/**
 * The client object. Its fields are updated in place, one method per operation;
 * each method takes the object's value to what the specification says, and the
 * object as a whole is always the result of a possible run.
 */
module SessionClient {
  import opened Basics
  import opened Protocol
  import opened SessionSpec
  import opened SessionConnection
  import SessionEffects
  import opened SessionInvariants
  import opened SessionLoops
  import opened SessionRuns
  import opened SessionTheorems

  // ----------------------------------------------------------------- reachable

  ghost predicate Reachable(s: State) {
    exists b, ms :: Possible(b, ms) && s == Run(b, ms)
  }

  lemma ReachableStart(b: Beginning)
    ensures Reachable(Start(b.config, b.env, b.credential, b.suspended))
  {
    hide Start;
    assert Possible(b, []) && Run(b, []) == Start(b.config, b.env, b.credential, b.suspended);
  }

  lemma ReachableStep(s: State, env: Env, e: Event)
    requires Reachable(s) && Enabled(s, env, e)
    ensures Reachable(Step(s, env, e))
    ensures Grows(s.log, Step(s, env, e).log)
    ensures SessionEffects.Visible(s, Moment(env, e), Step(s, env, e))
  {
    hide Step, Enabled, Start, Grows, SessionEffects.Visible;
    var b, ms :| Possible(b, ms) && s == Run(b, ms);
    var longer := ms + [Moment(env, e)];
    assert longer[..|longer| - 1] == ms;
    assert Possible(b, longer) && Run(b, longer) == Step(s, env, e);
    RecordGrows(b, ms, [Moment(env, e)]);
    SessionEffects.FramesAreVisible(b, ms, Moment(env, e));
  }

  /** Transmitted work that is not a query, ended by the client itself. */
  predicate CutShort(wire: seq<Transmission>, id: nat, d: Settled) {
    && Transmissions(wire, id) != [] && !d.kind.Query?
    && d.settlement.Rejected? && LocalCause(d.settlement.cause)
  }

  /** Every request is waiting or has ended, never both, and its ending is true of what was transmitted. */
  ghost predicate AccountsForWork(s: State) {
    && s.log.issued == s.pending.Keys + s.log.settled.Keys && s.pending.Keys !! s.log.settled.Keys
    && (forall id | id in s.pending && s.pending[id].kind.Procedure? :: |Transmissions(s.log.wire, id)| <= 1)
    && (forall id | id in s.log.settled ::
          var d := s.log.settled[id];
          && (d.kind.Mutation? ==> !d.settlement.Answered?)
          && (d.kind.Procedure? ==> |Transmissions(s.log.wire, id)| <= 1)
          && (CutShort(s.log.wire, id, d) ==> d.settlement.code in {Indeterminate, ConvergenceUnavailable}))
  }

  /** The counters are what is outstanding, within the limits. */
  ghost predicate AccountsForRoom(s: State) {
    && s.items == |s.subs| + |s.pending| + |s.others| <= s.config.maxItems
    && s.bytes == Total(SubBytes(s.subs)) + Total(RequestBytes(s.pending)) + Total(s.others) <= s.config.maxBytes
  }

  /** One socket or one timer while anything may be dialed, and phases that say so. */
  predicate AccountsForLink(s: State) {
    && (Halted(s) ==> !s.socket && !s.ready)
    && (!Halted(s) ==> s.socket != s.reconnect.Some?)
    && (PhaseOf(s).Ready? ==> s.socket && s.ready)
    && (PhaseOf(s).Resuming? ==> s.socket && !s.ready)
  }

  /** What the object promises between calls. */
  ghost predicate KeepsPromises(s: State) {
    && AccountsForWork(s)
    && AccountsForRoom(s)
    && AccountsForLink(s)
    && (forall id :: Anchored(Delivered(s.log, id)))
  }

  lemma {:induction false} RunAccountsForWork(b: Beginning, ms: seq<Moment>)
    requires Possible(b, ms)
    ensures AccountsForWork(Run(b, ms))
  {
    hide Possible, Run, Books, Ledgered, Truthful, Chained, Timers, Flight, Carried, Endings, Admitted, Linked,
         Standing;
    var s := Run(b, ms);
    EveryRequestAccounted(b, ms);
    forall id | id in s.pending && s.pending[id].kind.Procedure?
      ensures |Transmissions(s.log.wire, id)| <= 1
    {
      ProcedureTransmittedOnce(b, ms, id);
    }
    forall id | id in s.log.settled
      ensures s.log.settled[id].kind.Procedure? ==> |Transmissions(s.log.wire, id)| <= 1
      ensures CutShort(s.log.wire, id, s.log.settled[id]) ==>
                s.log.settled[id].settlement.code in {Indeterminate, ConvergenceUnavailable}
    {
      if s.log.settled[id].kind.Procedure? { ProcedureTransmittedOnce(b, ms, id); }
      if CutShort(s.log.wire, id, s.log.settled[id]) { TransmittedWorkIsNotCalledUnrun(b, ms, id); }
    }
    MutationsAreNotAnswered(b, ms);
  }

  /** Whatever the object can be, it keeps its promises. */
  lemma ReachableKeepsPromises(s: State)
    requires Reachable(s)
    ensures KeepsPromises(s)
  {
    hide Possible, Run, AccountsForWork, Total, SubBytes, RequestBytes, Anchored;
    var b, ms :| Possible(b, ms) && s == Run(b, ms);
    RunAccountsForWork(b, ms);
    ReservationsConserved(b, ms);
    ConnectionDiscipline(b, ms);
    PhasesAreTrue(b, ms);
    forall id
      ensures Anchored(Delivered(s.log, id))
    {
      CallbacksAreAnchored(b, ms, id);
    }
  }

  /** Brought about by the socket, a timer or the application's lifecycle. */
  predicate FromPlatform(e: Event) {
    e.Opened? || e.Incoming? || e.Lost? || e.ReconnectDue? || e.AttemptDue? || e.RequestDue? || e.RetryDue?
    || e.PingDue? || e.Suspend? || e.Resume?
  }

  /** The physical connection. */
  datatype Transport = Transport(
    socket: bool, open: bool, ready: bool, generation: nat, hello: Option<Credential>,
    reconnect: Option<nat>, notBefore: nat)

  datatype Life = Life(closed: bool, failed: bool, blocked: bool, suspended: bool, resuming: bool, everReady: bool)

  datatype Counters = Counters(nextId: nat, arms: nat)

  datatype Identity = Identity(credential: Credential, attempt: Option<Attempt>)

  datatype Budget = Budget(items: int, bytes: int, others: map<nat, nat>)

  /** The client's fields, grouped by what they describe. */
  class Client {
    const config: Config
    var env: Env
    var transport: Transport
    var life: Life
    var counters: Counters
    var identity: Identity
    var subs: map<nat, Subscription>
    var pending: map<nat, Request>
    var budget: Budget
    ghost var log: Log

    /** The object's value. */
    ghost function Model(): State
      reads this
    {
      State(config, env, transport.socket, transport.open, transport.ready, transport.generation,
            life.closed, life.failed, life.blocked, life.suspended, life.resuming, life.everReady,
            transport.reconnect, transport.notBefore, counters.nextId, counters.arms,
            identity.credential, transport.hello, identity.attempt,
            subs, pending, budget.items, budget.bytes, budget.others, log)
    }

    // ---------------------------------------------------------------- settling

    method FinishRequest(id: nat, how: Settlement)
      modifies this
      ensures Model() == Finish(old(Model()), id, how)
    {
      hide Finish;
      if id in pending {
        FinishIsFinished(Model(), id, how);
        log := Finished(Model(), id, how).log;
        budget := budget.(items := budget.items - 1, bytes := budget.bytes - pending[id].bytes);
        pending := pending - {id};
      } else {
        FinishAbsent(Model(), id, how);
      }
    }

    method FinishEach(done: map<nat, Settlement>)
      requires done.Keys <= pending.Keys
      modifies this
      ensures Model() == Settle(old(Model()), done)
    {
      hide Finish, Settle, Finished;
      ghost var s := Model();
      var todo := done.Keys;
      ghost var part: map<nat, Settlement> := map[];
      SettleNone(s, part);
      while todo != {}
        invariant todo <= done.Keys && part.Keys == done.Keys - todo
        invariant forall id | id in part :: part[id] == done[id]
        invariant part.Keys <= s.pending.Keys && Model() == Settle(s, part)
        decreases |todo|
      {
        var id :| id in todo;
        SettleMore(s, part, id, done[id]);
        FinishIsFinished(Model(), id, done[id]);
        FinishRequest(id, done[id]);
        part := part[id := done[id]];
        todo := todo - {id};
      }
      assert part == done;
    }

    method RejectAll(cause: Cause, code: Code)
      modifies this
      ensures Model() == SettleAll(old(Model()), cause, code)
    {
      hide Settle;
      FinishEach(map id | id in pending :: Rejected(cause, code));
    }

    /** Callbacks are outputs: they go to the record. */
    ghost method Report(id: nat, d: Delivery)
      modifies this`log
      ensures Model() == Notify(old(Model()), id, d)
    {
      log := Notify(Model(), id, d).log;
    }

    ghost method ReportAll(d: Delivery)
      modifies this`log
      ensures Model() == NotifyAll(old(Model()), d)
    {
      log := NotifyAll(Model(), d).log;
    }

    // -------------------------------------------------------------- connection

    method ForgetEventCursors()
      modifies this`subs
      ensures subs == ForgetEvents(old(subs))
    {
      var all := subs;
      var todo := subs.Keys;
      while todo != {}
        invariant todo <= all.Keys && subs == ForgetSome(all, all.Keys - todo)
        decreases |todo|
      {
        var id :| id in todo;
        if subs[id].stream.Events? {
          subs := subs[id := subs[id].(stream := Events(None))];
        }
        todo := todo - {id};
      }
    }

    method RetireConnection()
      modifies this
      ensures Model() == Retire(old(Model()))
    {
      hide ForgetEvents;
      transport := transport.(socket := false, open := false, ready := false);
      ForgetEventCursors();
    }

    method ReleaseSubscriptionBytes()
      modifies this`budget
      ensures budget == old(budget).(items := old(budget).items - |subs|,
                                     bytes := old(budget).bytes - Total(SubBytes(subs)))
    {
      hide Total, SubBytes;
      var todo := subs.Keys;
      ghost var sizes := SubBytes(subs);
      SizesKeys(subs);
      while todo != {}
        invariant todo <= subs.Keys
        invariant budget == old(budget).(items := old(budget).items - |subs| + |todo|,
                                         bytes := old(budget).bytes - Total(sizes) + Total(At(sizes, todo)))
        decreases |todo|
      {
        var id :| id in todo;
        TotalRemove(At(sizes, todo), id);
        assert At(sizes, todo) - {id} == At(sizes, todo - {id});
        budget := budget.(items := budget.items - 1, bytes := budget.bytes - subs[id].bytes);
        todo := todo - {id};
      }
      assert At(sizes, {}) == map[];
      TotalNone();
    }

    method ReleaseSubscriptions()
      modifies this
      ensures Model() == DropAll(old(Model()))
    {
      hide Total, SubBytes;
      ReleaseSubscriptionBytes();
      subs := map[];
    }

    method FailPermanently(code: Code)
      modifies this
      ensures Model() == Fail(old(Model()), code)
    {
      hide SettleAll, NotifyAll, DropAll, Retire;
      if life.failed || life.closed { return; }
      RejectAll(PermanentFailure, code);
      life := life.(failed := true, resuming := false);
      transport := transport.(reconnect := None);
      identity := identity.(attempt := None);
      ReportAll(Trouble(Error(code, false, None)));
      ReleaseSubscriptions();
      RetireConnection();
    }

    method ScheduleReconnect()
      modifies this
      ensures Model() == SessionSpec.ScheduleReconnect(old(Model()))
    {
      hide Fail;
      if transport.reconnect.Some? || transport.socket || life.suspended { return; }
      life := life.(resuming := false);
      assert Model() == old(Model()).(resuming := false);
      match env.delay
      case None => FailPermanently(Internal);
      case Some(d) => transport := transport.(reconnect := Some(env.now + d));
    }

    method FinishInFlight()
      modifies this
      ensures Model() == SettleInFlight(old(Model()))
    {
      hide Settle;
      FinishEach(map id | id in pending && InFlight(pending[id], transport.generation)
                   :: Rejected(ConnectionLost, Indeterminate));
    }

    method HandleClose()
      modifies this
      ensures Model() == LoseConnection(old(Model()))
    {
      hide SettleInFlight, SessionSpec.ScheduleReconnect;
      SettleInFlightFrame(Model());
      FinishInFlight();
      RetireConnection();
      life := life.(resuming := false);
      if !life.closed && !life.failed && !life.blocked {
        ScheduleReconnect();
      }
    }

    method EnsureConnected()
      modifies this
      ensures Model() == SessionSpec.EnsureConnected(old(Model()))
    {
      hide SessionSpec.ScheduleReconnect;
      if life.closed || life.failed || life.blocked || life.suspended || transport.socket { return; }
      if transport.notBefore > env.now { ScheduleReconnect(); return; }
      transport := transport.(reconnect := None);
      if !env.dial { ScheduleReconnect(); return; }
      transport := transport.(socket := true, generation := transport.generation + 1);
      log := log.(admissions := log.admissions + [Dialed(env.now)]);
    }

    /** Send one frame; a socket that throws is treated as closed. */
    method SendText(f: ClientFrame)
      modifies this
      ensures Model() == Send(old(Model()), f)
    {
      hide LoseConnection;
      if !transport.socket || !transport.open { return; }
      if env.sends > 0 {
        env := env.(sends := env.sends - 1);
        log := log.(wire := log.wire + [Transmission(transport.generation, f)]);
      } else {
        HandleClose();
      }
    }

    // -------------------------------------------------------- requests in flight

    method SendRequest(id: nat)
      requires id in pending
      modifies this
      ensures Model() == SessionSpec.SendRequest(old(Model()), id)
    {
      hide Send;
      SendText(Call(id, pending[id].kind));
      if id in pending {
        pending := pending[id := pending[id].(sent := Some(transport.generation))];
      }
    }

    method SendSubscription(id: nat)
      requires id in subs
      modifies this
      ensures Model() == SendSub(old(Model()), id)
    {
      hide Send;
      SendText(subs[id].frame);
      if id in subs {
        subs := subs[id := subs[id].(sent := Some(transport.generation))];
      }
    }

    predicate CanSendOperations()
      reads this
      ensures CanSendOperations() == CanSend(Model())
    {
      transport.open && transport.ready && identity.attempt.None? && transport.socket
    }

    method SendProcedureCancel(id: nat)
      modifies this
      ensures Model() == SendCancel(old(Model()), id)
    {
      hide Send;
      if id in pending && InFlight(pending[id], transport.generation) && CanSendOperations() {
        SendText(Cancel(id));
      }
    }

    method ExpireRequest(id: nat)
      modifies this
      ensures Model() == Expire(old(Model()), id)
    {
      hide SendCancel, Finish;
      if id !in pending { return; }
      var code := ExpiryCode(pending[id]);
      SendProcedureCancel(id);
      FinishRequest(id, Rejected(Deadline, code));
    }

    method CancelProcedure(id: nat)
      modifies this
      ensures Model() == Abort(old(Model()), id)
    {
      hide SendCancel, Finish;
      if id !in pending || !pending[id].kind.Procedure? { return; }
      var code := AbandonCode(pending[id]);
      SendProcedureCancel(id);
      FinishRequest(id, Rejected(Canceled, code));
    }

    method FlushSubscriptions(end: nat)
      modifies this
      ensures Model() == FlushSubs(old(Model()), 0, end)
    {
      hide SendSub;
      ghost var s := Model();
      var id := 0;
      while id < end
        invariant id <= end
        invariant FlushSubs(s, 0, end) == FlushSubs(Model(), id, end)
      {
        if id in subs && !subs[id].waiting && subs[id].sent != Some(transport.generation) {
          SendSubscription(id);
        }
        id := id + 1;
      }
    }

    method FlushPending(end: nat)
      modifies this
      ensures Model() == FlushRequests(old(Model()), 0, end)
    {
      hide Expire, SessionSpec.SendRequest;
      ghost var s := Model();
      var id := 0;
      while id < end
        invariant id <= end
        invariant FlushRequests(s, 0, end) == FlushRequests(Model(), id, end)
      {
        if id in pending {
          if pending[id].expiresAt <= env.now {
            ExpireRequest(id);
          } else if pending[id].sent != Some(transport.generation) {
            SendRequest(id);
          }
        }
        id := id + 1;
      }
    }

    method FlushState()
      modifies this
      ensures Model() == Flush(old(Model()))
    {
      if !CanSendOperations() { return; }
      var end := counters.nextId;
      FlushSubscriptions(end);
      FlushPending(end);
    }

    // ------------------------------------------------------------- convergence

    method TellMutation(r: nat, id: nat, upTo: Option<nat>)
      requires r in pending
      modifies this
      ensures Model() == Told(old(Model()), id, upTo, r)
    {
      hide Finish, Finished;
      if Released(pending[r], id, upTo) {
        var p := pending[r].pledge.value;
        if p.obligations == {id} {
          FinishIsFinished(Model(), r, Convergence(p));
          FinishRequest(r, Convergence(p));
        } else {
          pending := pending[r := WithoutObligation(pending[r], id)];
        }
      }
    }

    /** Tell the waiting mutations that a subscription has reached a version, or is gone. */
    method AdvanceConvergence(id: nat, upTo: Option<nat>)
      modifies this
      ensures Model() == Discharge(old(Model()), id, upTo)
    {
      hide Discharge, DischargeSome, Told;
      ghost var s := Model();
      var todo := pending.Keys;
      DischargeFirst(s, id, upTo);
      assert s.pending.Keys - todo == {};
      while todo != {}
        invariant todo <= s.pending.Keys
        invariant Model() == DischargeSome(s, id, upTo, s.pending.Keys - todo)
        decreases |todo|
      {
        var r :| r in todo;
        ghost var told := s.pending.Keys - todo;
        DischargeNext(s, id, upTo, told, r);
        TellMutation(r, id, upTo);
        todo := todo - {r};
        assert s.pending.Keys - todo == told + {r};
      }
      assert s.pending.Keys - todo == s.pending.Keys;
      DischargeLast(s, id, upTo);
    }

    method RemoveSubscription(id: nat, announce: bool)
      modifies this
      ensures Model() == RemoveSub(old(Model()), id, announce)
    {
      hide Send, Discharge;
      if id !in subs { return; }
      budget := budget.(items := budget.items - 1, bytes := budget.bytes - subs[id].bytes);
      subs := subs - {id};
      if announce && CanSendOperations() {
        SendText(Unsubscribe(id));
      }
      AdvanceConvergence(id, None);
    }

    // ------------------------------------------------------------- transitions

    method RequestReset(id: nat)
      requires id in subs && subs[id].stream.Outcomes?
      modifies this
      ensures Model() == SessionSpec.RequestReset(old(Model()), id)
    {
      hide Send;
      var q := subs[id].stream;
      if q.resetRequested { return; }
      subs := subs[id := subs[id].(stream := q.(resetRequested := true))];
      if !CanSendOperations() { return; }
      if q.cursor.Some? {
        SendText(ResetFrame(id, q.cursor.value));
      } else {
        SendText(SubscribeFrame(id, None));
      }
    }

    /** Hold the transition's cursor if its resume frame fits; otherwise give the subscription up. */
    method RetainCursor(id: nat, t: Transition) returns (held: bool)
      requires id in subs && subs[id].stream.Outcomes?
      modifies this
      ensures held == Retainable(old(Model()), id, t.to)
      ensures held ==> Model() == Retain(old(Model()), id, t)
      ensures !held ==> Model() == SessionSpec.Advance(old(Model()), id, t)
    {
      hide RemoveSub, Notify, Discharge;
      var f := SubscribeFrame(id, Some(t.to));
      var size := config.measure(f);
      if size.None? || size.value > config.maxFrameBytes {
        Report(id, Trouble(Error(Overloaded, false, None)));
        RemoveSubscription(id, true);
        return false;
      }
      var nextTotal := budget.bytes - subs[id].bytes + size.value;
      if nextTotal > config.maxBytes {
        Report(id, Trouble(Error(Overloaded, true, Some(config.baseDelay))));
        RemoveSubscription(id, true);
        return false;
      }
      log := Retain(Model(), id, t).log;
      budget := budget.(bytes := nextTotal);
      subs := subs[id := subs[id].(frame := f, bytes := size.value, stream := Outcomes(Some(t.to), false))];
      return true;
    }

    method ConfirmHeld(id: nat, isReset: bool, version: nat)
      requires id in subs && subs[id].stream.Outcomes?
      modifies this
      ensures Model() == SessionSpec.ConfirmHeld(old(Model()), id, isReset, version)
    {
      hide Discharge, Notify;
      var q := subs[id].stream;
      var asking := q.resetRequested && !isReset;
      subs := subs[id := subs[id].(stream := q.(resetRequested := asking))];
      AdvanceConvergence(id, Some(version));
      if !asking {
        Report(id, Confirmed);
      }
    }

    method Advance(id: nat, t: Transition)
      requires id in subs && subs[id].stream.Outcomes?
      modifies this
      ensures Model() == SessionSpec.Advance(old(Model()), id, t)
    {
      hide Discharge, Notify, Retain, RemoveSub, Retainable, Fits;
      var held := RetainCursor(id, t);
      if !held { return; }
      Report(id, Callback(t));
      AdvanceConvergence(id, Some(t.to.commitVersion));
    }

    method SettleRetry(id: nat)
      requires id in subs
      modifies this
      ensures Model() == SessionSpec.SettleRetry(old(Model()), id)
    {
      subs := subs[id := subs[id].(waiting := false)];
    }

    method ApplyTransition(id: nat, t: Transition)
      modifies this
      ensures Model() == SessionSpec.ApplyTransition(old(Model()), id, t)
    {
      hide Fail, SessionSpec.ConfirmHeld, SessionSpec.RequestReset, SessionSpec.Advance, PredecessorMatches;
      if id !in subs { return; }
      if subs[id].stream.Events? { FailPermanently(Malformed); return; }
      SettleRetry(id);
      var q := subs[id].stream;
      if q.cursor == Some(t.to) {
        ConfirmHeld(id, t.Reset?, t.to.commitVersion);
      } else if q.resetRequested && !t.Reset? {
      } else if !PredecessorMatches(q.cursor, t) {
        RequestReset(id);
      } else {
        Advance(id, t);
      }
    }

    method ApplyLiveEvent(id: nat, e: LiveEvent)
      modifies this
      ensures Model() == ApplyLive(old(Model()), id, e)
    {
      hide Fail, Notify, Heard;
      if id !in subs { return; }
      if subs[id].stream.Outcomes? { FailPermanently(Malformed); return; }
      SettleRetry(id);
      var at := subs[id].stream.at;
      if at == Some(e.at) { return; }
      subs := subs[id := subs[id].(stream := Events(Some(e.at)))];
      Report(id, Happened(Heard(at, e)));
    }

    // ----------------------------------------------------------------- results

    /** The registered subscriptions a receipt names: whether one is an event stream, and those behind. */
    method Obligations(receipt: Receipt) returns (registered: set<nat>, behind: set<nat>, events: bool)
      ensures registered == Named(receipt) * subs.Keys
      ensures registered <= subs.Keys && behind == Late(subs, registered, receipt.commitVersion)
      ensures events <==> exists k :: k in registered && subs[k].stream.Events?
    {
      registered, behind, events := {}, {}, false;
      var i := 0;
      while i < |receipt.obligations|
        invariant i <= |receipt.obligations|
        invariant forall k :: k in registered <==> k in subs && k in receipt.obligations[..i]
        invariant forall k :: k in behind <==> k in registered && Behind(subs[k], receipt.commitVersion)
        invariant events <==> exists k :: k in registered && subs[k].stream.Events?
      {
        var k := receipt.obligations[i];
        if k in subs {
          registered := registered + {k};
          if Behind(subs[k], receipt.commitVersion) { behind := behind + {k}; }
          if subs[k].stream.Events? { events := true; }
        }
        i := i + 1;
      }
      assert receipt.obligations[..i] == receipt.obligations;
    }

    method ApplyMutationReceipt(id: nat, receipt: Receipt, answer: Answer)
      requires id in pending
      modifies this
      ensures Model() == ApplyReceipt(old(Model()), id, receipt, answer)
    {
      hide Fail, Finish, Named, Late, Convergence;
      if receipt.requestId != pending[id].requestId { FailPermanently(Malformed); return; }
      var registered, behind, events := Obligations(receipt);
      if events { FailPermanently(Malformed); return; }
      var pledge := Pledge(receipt.commitVersion, answer, registered, behind);
      if behind == {} {
        FinishRequest(id, Convergence(pledge));
      } else {
        pending := pending[id := pending[id].(pledge := Some(pledge))];
      }
    }

    method ApplyResult(id: nat, kind: Kind, answer: Answer, receipt: Option<Receipt>)
      modifies this
      ensures Model() == SessionSpec.ApplyResult(old(Model()), id, kind, answer, receipt)
    {
      hide Fail, Finish, ApplyReceipt;
      if id !in pending { return; }
      if kind != pending[id].kind { FailPermanently(Malformed); return; }
      if !kind.Mutation? { FinishRequest(id, Answered(answer)); return; }
      if receipt.None? { FailPermanently(Malformed); return; }
      ApplyMutationReceipt(id, receipt.value, answer);
    }

    method BlockAuthentication(e: Error)
      modifies this
      ensures Model() == Block(old(Model()), e)
    {
      hide SettleAll, NotifyAll, Retire;
      RejectAll(AuthenticationBlocked, e.code);
      ReportAll(Trouble(e));
      life := life.(blocked := true, resuming := false);
      identity := identity.(attempt := None);
      RetireConnection();
    }

    method ScheduleSubscriptionRetry(id: nat)
      requires id in subs
      modifies this
      ensures Model() == ScheduleRetry(old(Model()), id)
    {
      hide Fail;
      if subs[id].waiting { return; }
      subs := subs[id := subs[id].(sent := None)];
      match env.delay
      case None => FailPermanently(Internal);
      case Some(_) => subs := subs[id := subs[id].(waiting := true)];
    }

    method ApplyConnectionError(e: Error)
      modifies this
      ensures Model() == SessionSpec.ApplyConnectionError(old(Model()), e)
    {
      hide Block, Fail;
      if e.retryable {
        var d := RetryDeadline(env.now, e);
        transport := transport.(notBefore := if transport.notBefore < d then d else transport.notBefore);
        log := log.(admissions := log.admissions + [NotBefore(d)]);
      } else if IsAuthCode(e.code) {
        BlockAuthentication(e);
      } else {
        FailPermanently(e.code);
      }
    }

    method ApplyError(target: Option<nat>, e: Error)
      modifies this
      ensures Model() == SessionSpec.ApplyError(old(Model()), target, e)
    {
      hide SessionSpec.ApplyConnectionError, Block, Finish, ScheduleRetry, RemoveSub;
      match target
      case None => ApplyConnectionError(e);
      case Some(id) =>
        if identity.attempt.Some? && identity.attempt.value.id == id {
          BlockAuthentication(e);
        } else if id in pending {
          FinishRequest(id, Rejected(ServerError, e.code));
        } else if id in subs {
          Report(id, Trouble(e));
          if e.retryable {
            ScheduleSubscriptionRetry(id);
          } else {
            RemoveSubscription(id, false);
          }
        }
    }

    // ----------------------------------------------------------- authentication

    method SendAuthentication()
      requires identity.attempt.Some?
      modifies this
      ensures Model() == SendAuth(old(Model()))
    {
      hide Send;
      SendText(Auth(identity.attempt.value.id, identity.attempt.value.credential));
    }

    method Introduce()
      modifies this
      ensures Model() == SessionSpec.Introduce(old(Model()))
    {
      hide SendAuth;
      if identity.attempt.None? { return; }
      if transport.hello == Some(identity.attempt.value.credential) {
        identity := identity.(attempt := None);
      } else {
        SendAuthentication();
      }
    }

    method ApplyWelcome(session: string)
      modifies this
      ensures Model() == SessionSpec.ApplyWelcome(old(Model()), session)
    {
      hide Fail, Flush, SessionSpec.Introduce;
      if session != config.session { FailPermanently(Malformed); return; }
      if transport.ready { return; }
      transport := transport.(ready := true);
      life := life.(everReady := true, resuming := false);
      Introduce();
      FlushState();
    }

    method ApplyAuthAccepted(attemptId: nat)
      modifies this
      ensures Model() == SessionSpec.ApplyAuthAccepted(old(Model()), attemptId)
    {
      hide Flush;
      if identity.attempt.None? || identity.attempt.value.id != attemptId { return; }
      identity := identity.(attempt := None);
      FlushState();
    }

    method ExpireAuthAttempt()
      modifies this
      ensures Model() == ExpireAttempt(old(Model()))
    {
      hide Retire;
      if identity.attempt.None? { return; }
      identity := identity.(attempt := None);
      life := life.(blocked := true, resuming := false);
      RetireConnection();
    }

    // ------------------------------------------------------------ socket events

    predicate IsCurrent(generation: nat)
      reads this
      ensures IsCurrent(generation) == Current(Model(), generation)
    {
      transport.socket && transport.generation == generation
    }

    method HandleOpen(generation: nat)
      modifies this
      ensures Model() == OnOpen(old(Model()), generation)
    {
      hide Send, Fail;
      if !IsCurrent(generation) || life.closed { return; }
      var hello := Hello(identity.credential);
      transport := transport.(open := true, hello := Some(identity.credential));
      if Fits(config, hello) { SendText(hello); } else { FailPermanently(Overloaded); }
    }

    method ApplyFrame(f: ServerFrame)
      modifies this
      ensures Model() == Dispatch(old(Model()), f)
    {
      hide SessionSpec.ApplyWelcome, SessionSpec.ApplyAuthAccepted, SessionSpec.ApplyTransition, ApplyLive,
           SessionSpec.ApplyResult, SessionSpec.ApplyError;
      match f
      case Welcome(session) => ApplyWelcome(session);
      case AuthAccepted(attemptId) => ApplyAuthAccepted(attemptId);
      case Deliver(id, t) => ApplyTransition(id, t);
      case Live(id, e) => ApplyLiveEvent(id, e);
      case Result(id, kind, answer, receipt) => ApplyResult(id, kind, answer, receipt);
      case Failure(target, e) => ApplyError(target, e);
      case Pong =>
      case Undecodable =>
    }

    method HandleIncoming(generation: nat, f: ServerFrame)
      modifies this
      ensures Model() == OnFrame(old(Model()), generation, f)
    {
      hide Dispatch, Fail, AcceptedFrame;
      if !IsCurrent(generation) || life.closed { return; }
      if !AcceptedFrame(transport.ready, f) { FailPermanently(Malformed); return; }
      ApplyFrame(f);
    }

    method HandleLost(generation: nat)
      modifies this
      ensures Model() == OnLost(old(Model()), generation)
    {
      hide LoseConnection;
      if IsCurrent(generation) { HandleClose(); }
    }

    // ------------------------------------------------------------------- timers

    method Reconnect()
      modifies this
      ensures Model() == OnReconnectDue(old(Model()))
    {
      hide SessionSpec.EnsureConnected;
      transport := transport.(reconnect := None);
      EnsureConnected();
    }

    method RetrySubscription(id: nat)
      modifies this
      ensures Model() == OnRetryDue(old(Model()), id)
    {
      hide SessionSpec.EnsureConnected, SendSub;
      if id !in subs || !subs[id].waiting { return; }
      SettleRetry(id);
      if CanSendOperations() { SendSubscription(id); } else { EnsureConnected(); }
    }

    method SendPing(generation: nat)
      modifies this
      ensures Model() == OnPing(old(Model()), generation)
    {
      hide Send;
      if transport.ready && transport.generation == generation { SendText(Ping); }
    }

    // ------------------------------------------------------------- application

    method CancelAllInFlight(end: nat)
      modifies this
      ensures Model() == CancelInFlight(old(Model()), 0, end)
    {
      hide SendCancel;
      ghost var s := Model();
      var id := 0;
      while id < end
        invariant id <= end
        invariant CancelInFlight(s, 0, end) == CancelInFlight(Model(), id, end)
      {
        SendProcedureCancel(id);
        id := id + 1;
      }
    }

    method FinishProcedures()
      modifies this
      ensures Model() == SettleProcedures(old(Model()))
    {
      hide Settle;
      FinishEach(map id | id in pending && pending[id].kind.Procedure?
                   :: Rejected(Suspension, AbandonCode(pending[id])));
    }

    method SuspendTransport()
      modifies this
      ensures Model() == OnSuspend(old(Model()))
    {
      hide CancelInFlight, SettleProcedures, Retire;
      if life.closed || life.suspended { return; }
      CancelAllInFlight(counters.nextId);
      FinishProcedures();
      life := life.(suspended := true, resuming := false);
      transport := transport.(reconnect := None);
      if identity.attempt.Some? {
        identity := identity.(attempt := Some(identity.attempt.value.(armed := None)));
      }
      RetireConnection();
    }

    method RearmAttempt()
      modifies this
      ensures Model() == Rearm(old(Model()))
    {
      hide ExpireAttempt;
      if identity.attempt.None? { return; }
      if identity.attempt.value.expiresAt <= env.now { ExpireAuthAttempt(); return; }
      identity := identity.(attempt := Some(identity.attempt.value.(armed := Some(counters.arms))));
      counters := counters.(arms := counters.arms + 1);
    }

    method Reopen()
      modifies this
      ensures Model() == SessionSpec.Reopen(old(Model()))
    {
      hide SessionSpec.EnsureConnected;
      if life.failed || life.blocked { return; }
      life := life.(resuming := true);
      EnsureConnected();
    }

    method ResumeTransport()
      modifies this
      ensures Model() == OnResume(old(Model()))
    {
      hide Rearm, SessionSpec.Reopen;
      if life.closed || !life.suspended { return; }
      life := life.(suspended := false);
      RearmAttempt();
      Reopen();
    }

    predicate IsUsable()
      reads this
      ensures IsUsable() == Usable(Model())
    {
      !life.closed && !life.failed && !life.blocked
    }

    predicate HasRoom(size: nat)
      reads this
      ensures HasRoom(size) == Admits(Model(), size)
    {
      budget.items < config.maxItems && size <= config.maxBytes - budget.bytes
    }

    method SendOrConnect(id: nat)
      modifies this
      ensures Model() == ConnectAndSend(old(Model()), id)
    {
      hide SessionSpec.EnsureConnected, SessionSpec.SendRequest;
      EnsureConnected();
      if CanSendOperations() && id in pending { SendRequest(id); }
    }

    method AddRequest(r: Request)
      modifies this
      ensures Model() == Asked(old(Model()), r)
    {
      log := log.(issued := log.issued + {counters.nextId});
      pending := pending[counters.nextId := r];
      counters := Counters(counters.nextId + 1, counters.arms + 1);
      budget := budget.(items := budget.items + 1, bytes := budget.bytes + r.bytes);
    }

    method Ask(kind: Kind, requestId: string)
      modifies this
      ensures Model() == OnAsk(old(Model()), kind, requestId)
    {
      hide ConnectAndSend, Asked, Usable, Admits;
      if !IsUsable() || (kind.Procedure? && life.suspended) || counters.nextId > MAX_PROTOCOL_ID { return; }
      var id := counters.nextId;
      var f := Call(id, kind);
      if !Fits(config, f) || !HasRoom(config.measure(f).value) {
        counters := counters.(nextId := id + 1);
        return;
      }
      AddRequest(Request(kind, config.measure(f).value, env.now + MaxAge(config, kind), counters.arms,
                         requestId, None, None));
      SendOrConnect(id);
    }

    method SubscribeOrConnect(id: nat)
      modifies this
      ensures Model() == ConnectAndSubscribe(old(Model()), id)
    {
      hide SessionSpec.EnsureConnected, SendSub;
      EnsureConnected();
      if CanSendOperations() && id in subs { SendSubscription(id); }
    }

    method AddSubscription(sub: Subscription)
      modifies this
      ensures Model() == Watched(old(Model()), sub)
    {
      subs := subs[counters.nextId := sub];
      counters := counters.(nextId := counters.nextId + 1);
      budget := budget.(items := budget.items + 1, bytes := budget.bytes + sub.bytes);
    }

    method Subscribe(query: bool)
      modifies this
      ensures Model() == OnWatch(old(Model()), query)
    {
      hide ConnectAndSubscribe, Watched, Usable, Admits;
      if !IsUsable() || counters.nextId > MAX_PROTOCOL_ID { return; }
      var id := counters.nextId;
      var f := SubscribeFrame(id, None);
      if !Fits(config, f) || !HasRoom(config.measure(f).value) {
        counters := counters.(nextId := id + 1);
        return;
      }
      AddSubscription(Subscription(f, config.measure(f).value, None, false,
                                   if query then Outcomes(None, false) else Events(None)));
      SubscribeOrConnect(id);
    }

    method StartAttempt(id: nat, credential: Credential)
      modifies this
      ensures Model() == Present(old(Model()), id, credential) && identity.attempt.Some?
    {
      identity := Identity(credential, Some(Attempt(id, credential, env.now + config.maxQueryAge,
                                                    if life.suspended then None else Some(counters.arms))));
      life := life.(blocked := false);
      counters := counters.(arms := counters.arms + 1);
    }

    method Announce()
      requires identity.attempt.Some?
      modifies this
      ensures Model() == SessionSpec.Announce(old(Model()))
    {
      hide SendAuth, SessionSpec.EnsureConnected;
      if transport.ready { SendAuthentication(); } else { EnsureConnected(); }
    }

    method PresentCredential(id: nat, credential: Credential)
      modifies this
      ensures Model() == SessionSpec.Announce(Present(old(Model()), id, credential))
    {
      hide SessionSpec.Announce;
      StartAttempt(id, credential);
      Announce();
    }

    method RefreshCredential(credential: Credential)
      modifies this
      ensures Model() == OnRefresh(old(Model()), credential)
    {
      hide Present, Fits, SessionSpec.Announce;
      if life.closed || life.failed { return; }
      if identity.attempt.Some? && identity.attempt.value.credential == credential { return; }
      if counters.nextId > MAX_PROTOCOL_ID { return; }
      var id := counters.nextId;
      counters := counters.(nextId := id + 1);
      if !Fits(config, Auth(id, credential)) { return; }
      PresentCredential(id, credential);
    }

    method ReserveRetained(key: nat, size: nat)
      modifies this
      ensures Model() == OnReserve(old(Model()), key, size)
    {
      if key in budget.others || size > config.maxFrameBytes || !HasRoom(size) { return; }
      budget := Budget(budget.items + 1, budget.bytes + size, budget.others[key := size]);
    }

    method ReleaseRetained(key: nat)
      modifies this
      ensures Model() == OnRelease(old(Model()), key)
    {
      if key !in budget.others { return; }
      budget := Budget(budget.items - 1, budget.bytes - budget.others[key], budget.others - {key});
    }

    method FinishEverything()
      modifies this
      ensures Model() == SettleClosed(old(Model()))
    {
      hide Settle;
      FinishEach(map id | id in pending :: Rejected(ClientClosed, AbandonCode(pending[id])));
    }

    method CloseClient()
      modifies this
      ensures Model() == OnClose(old(Model()))
    {
      hide DropAll, SettleClosed;
      if life.closed { return; }
      FinishEverything();
      ReleaseSubscriptions();
      life := life.(closed := true);
      transport := transport.(reconnect := None, socket := false, open := false, ready := false);
      identity := identity.(attempt := None);
    }

    // --------------------------------------------------------------- the object

    constructor (b: Beginning)
      ensures Model() == Start(b.config, b.env, b.credential, b.suspended)
      ensures Reachable(Model())
    {
      config, env := b.config, b.env;
      transport := Transport.Transport(false, false, false, 0, None, None, 0);
      life := Life(false, false, false, b.suspended, false, false);
      counters := Counters(1, 0);
      identity := Identity(b.credential, None);
      subs, pending := map[], map[];
      budget := Budget(0, 0, map[]);
      log := Log(map[], map[], map[], {}, [], []);
      new;
      hide SessionSpec.EnsureConnected;
      EnsureConnected();
      ReachableStart(b);
    }

    method RespondToPlatform(e: Event)
      requires FromPlatform(e)
      modifies this
      ensures Model() == React(old(Model()), e)
    {
      hide OnOpen, OnFrame, OnLost, OnReconnectDue, ExpireAttempt, Expire, OnRetryDue, OnPing, OnSuspend, OnResume;
      match e
      case Opened(g) => HandleOpen(g);
      case Incoming(g, f) => HandleIncoming(g, f);
      case Lost(g) => HandleLost(g);
      case ReconnectDue => Reconnect();
      case AttemptDue => ExpireAuthAttempt();
      case RequestDue(id) => ExpireRequest(id);
      case RetryDue(id) => RetrySubscription(id);
      case PingDue(g) => SendPing(g);
      case Suspend => SuspendTransport();
      case Resume => ResumeTransport();
    }

    method RespondToApplication(e: Event)
      requires !FromPlatform(e)
      modifies this
      ensures Model() == React(old(Model()), e)
    {
      hide OnAsk, Abort, OnWatch, RemoveSub, OnRefresh, OnReserve, OnRelease, OnClose;
      match e
      case Ask(kind, requestId) => Ask(kind, requestId);
      case AbortCall(id) => CancelProcedure(id);
      case Watch(query) => Subscribe(query);
      case Unwatch(id) => RemoveSubscription(id, true);
      case Refresh(credential) => RefreshCredential(credential);
      case Reserve(key, size) => ReserveRetained(key, size);
      case Release(key) => ReleaseRetained(key);
      case Close => CloseClient();
    }

    /** One event, as the platform or the application brings it about. */
    method Handle(platform: Env, e: Event)
      requires Reachable(Model()) && Enabled(Model(), platform, e)
      modifies this
      ensures Model() == Step(old(Model()), platform, e)
      ensures Reachable(Model()) && KeepsPromises(Model()) && Grows(old(log), log)
      ensures SessionEffects.Visible(old(Model()), Moment(platform, e), Model())
    {
      hide Reachable, Enabled, React, KeepsPromises, Grows, SessionEffects.Visible;
      ReachableStep(Model(), platform, e);
      ReachableKeepsPromises(Step(Model(), platform, e));
      env := platform;
      Respond(e);
    }

    method Respond(e: Event)
      modifies this
      ensures Model() == React(old(Model()), e)
    {
      hide React;
      if FromPlatform(e) { RespondToPlatform(e); } else { RespondToApplication(e); }
    }
  }
}
