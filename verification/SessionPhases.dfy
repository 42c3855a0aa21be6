/**
 * Whether a client has ever been ready, which is what tells connecting from
 * reconnecting: exactly when the server's welcome has come.
 */
module SessionPhases {
  import opened Basics
  import opened Protocol
  import opened SessionSpec
  import opened SessionRuns

  /** This event is the welcome of the session on the current connection. */
  predicate Welcomes(s: State, e: Event) {
    && e.Incoming? && Current(s, e.generation) && !s.closed && !s.ready
    && e.frame == Welcome(s.config.session)
  }

  lemma SettleRemembers(s: State, done: map<nat, Settlement>)
    requires done.Keys <= s.pending.Keys
    ensures Settle(s, done).everReady == s.everReady
  {
  }

  lemma SettleAllRemembers(s: State, cause: Cause, code: Code)
    ensures SettleAll(s, cause, code).everReady == s.everReady
  {
    hide Settle;
    SettleRemembers(s, map id | id in s.pending :: Rejected(cause, code));
  }

  lemma FailRemembers(s: State, code: Code)
    ensures Fail(s, code).everReady == s.everReady
  {
    hide SettleAll, Total, ForgetEvents, SubBytes;
    SettleAllRemembers(s, PermanentFailure, code);
  }

  lemma ScheduleRemembers(s: State)
    ensures ScheduleReconnect(s).everReady == s.everReady
  {
    hide Fail;
    FailRemembers(s.(resuming := false), Internal);
  }

  lemma FinishRemembers(s: State, id: nat, how: Settlement)
    ensures Finish(s, id, how).everReady == s.everReady
  {
    hide Settle;
    if id in s.pending { SettleRemembers(s, map[id := how]); }
  }

  lemma LoseRemembers(s: State)
    ensures LoseConnection(s).everReady == s.everReady
  {
    hide Settle, ScheduleReconnect, ForgetEvents;
    SettleRemembers(s, map id | id in s.pending && InFlight(s.pending[id], s.generation)
                         :: Rejected(ConnectionLost, Indeterminate));
    ScheduleRemembers(Retire(SettleInFlight(s)).(resuming := false));
  }

  lemma ConnectRemembers(s: State)
    ensures EnsureConnected(s).everReady == s.everReady
  {
    hide ScheduleReconnect;
    ScheduleRemembers(s);
    ScheduleRemembers(s.(reconnect := None));
  }

  lemma SendRemembers(s: State, f: ClientFrame)
    ensures Send(s, f).everReady == s.everReady
  {
    hide LoseConnection;
    LoseRemembers(s);
  }

  lemma ExpireRemembers(s: State, id: nat)
    ensures Expire(s, id).everReady == s.everReady && Abort(s, id).everReady == s.everReady
  {
    hide Send, Finish;
    if id in s.pending {
      SendRemembers(s, Cancel(id));
      FinishRemembers(SendCancel(s, id), id, Rejected(Deadline, ExpiryCode(s.pending[id])));
      FinishRemembers(SendCancel(s, id), id, Rejected(Canceled, AbandonCode(s.pending[id])));
    }
  }

  lemma {:induction false} FlushSubsRemembers(s: State, id: nat, end: nat)
    ensures FlushSubs(s, id, end).everReady == s.everReady
    decreases end - id
  {
    hide Send;
    if id < end {
      if id in s.subs { SendRemembers(s, s.subs[id].frame); }
      var s1 := if id in s.subs && !s.subs[id].waiting && s.subs[id].sent != Some(s.generation)
                then SendSub(s, id) else s;
      FlushSubsRemembers(s1, id + 1, end);
    }
  }

  lemma {:induction false} FlushRequestsRemembers(s: State, id: nat, end: nat)
    ensures FlushRequests(s, id, end).everReady == s.everReady
    decreases end - id
  {
    hide Send, Expire;
    if id < end {
      if id in s.pending { SendRemembers(s, Call(id, s.pending[id].kind)); }
      ExpireRemembers(s, id);
      var s1 := if id !in s.pending then s
                else if s.pending[id].expiresAt <= s.env.now then Expire(s, id)
                else if s.pending[id].sent != Some(s.generation) then SendRequest(s, id)
                else s;
      FlushRequestsRemembers(s1, id + 1, end);
    }
  }

  lemma FlushRemembers(s: State)
    ensures Flush(s).everReady == s.everReady
  {
    hide FlushSubs, FlushRequests;
    FlushSubsRemembers(s, 0, s.nextId);
    FlushRequestsRemembers(FlushSubs(s, 0, s.nextId), 0, s.nextId);
  }

  lemma DischargeRemembers(s: State, id: nat, upTo: Option<nat>)
    ensures Discharge(s, id, upTo).everReady == s.everReady
  {
    hide Settle, Reduced;
    SettleRemembers(s, Converging(s.pending, id, upTo));
  }

  lemma RemoveRemembers(s: State, id: nat, announce: bool)
    ensures RemoveSub(s, id, announce).everReady == s.everReady
  {
    hide Send, Discharge;
    if id in s.subs {
      var s1 := Drop(s, id);
      SendRemembers(s1, Unsubscribe(id));
      DischargeRemembers(s1, id, None);
      DischargeRemembers(Send(s1, Unsubscribe(id)), id, None);
    }
  }

  lemma ResetRemembers(s: State, id: nat)
    requires id in s.subs && s.subs[id].stream.Outcomes?
    ensures RequestReset(s, id).everReady == s.everReady
  {
    hide Send;
    var q := s.subs[id].stream;
    var s1 := s.(subs := s.subs[id := s.subs[id].(stream := q.(resetRequested := true))]);
    if q.cursor.Some? { SendRemembers(s1, ResetFrame(id, q.cursor.value)); }
    SendRemembers(s1, SubscribeFrame(id, None));
  }

  lemma AdvanceRemembers(s: State, id: nat, t: Transition)
    requires id in s.subs && s.subs[id].stream.Outcomes?
    ensures Advance(s, id, t).everReady == s.everReady
  {
    hide RemoveSub, Discharge, Callback;
    var tooLarge := !Fits(s.config, SubscribeFrame(id, Some(t.to)));
    var problem := Error(Overloaded, !tooLarge, if tooLarge then None else Some(s.config.baseDelay));
    RemoveRemembers(Notify(s, id, Trouble(problem)), id, true);
    if Retainable(s, id, t.to) {
      DischargeRemembers(Notify(Retain(s, id, t), id, Callback(t)), id, Some(t.to.commitVersion));
    }
  }

  lemma ConfirmRemembers(s: State, id: nat, isReset: bool, version: nat)
    requires id in s.subs && s.subs[id].stream.Outcomes?
    ensures ConfirmHeld(s, id, isReset, version).everReady == s.everReady
  {
    hide Discharge, Demand, Notify;
    var asking := s.subs[id].stream.resetRequested && !isReset;
    var s1 := Discharge(Demand(s, id, asking), id, Some(version));
    DemandRemembers(s, id, asking);
    DischargeRemembers(Demand(s, id, asking), id, Some(version));
    NotifyRemembers(s1, id, Confirmed);
  }

  lemma DemandRemembers(s: State, id: nat, asking: bool)
    requires id in s.subs && s.subs[id].stream.Outcomes?
    ensures Demand(s, id, asking).everReady == s.everReady
  {
  }

  lemma NotifyRemembers(s: State, id: nat, d: Delivery)
    ensures Notify(s, id, d).everReady == s.everReady
  {
  }

  lemma WaitEnds(s: State, id: nat)
    requires id in s.subs
    ensures var t := SettleRetry(s, id);
            t.everReady == s.everReady && id in t.subs && t.subs[id].stream == s.subs[id].stream
  {
  }

  lemma TransitionRemembers(s: State, id: nat, t: Transition)
    ensures ApplyTransition(s, id, t).everReady == s.everReady
  {
    hide Fail, Advance, RequestReset, ConfirmHeld, PredecessorMatches, SettleRetry;
    FailRemembers(s, Malformed);
    if id in s.subs && s.subs[id].stream.Outcomes? {
      var s1 := SettleRetry(s, id);
      WaitEnds(s, id);
      ConfirmRemembers(s1, id, t.Reset?, t.to.commitVersion);
      ResetRemembers(s1, id);
      AdvanceRemembers(s1, id, t);
    }
  }

  lemma LiveRemembers(s: State, id: nat, e: LiveEvent)
    ensures ApplyLive(s, id, e).everReady == s.everReady
  {
    hide Fail, Heard;
    FailRemembers(s, Malformed);
  }

  lemma ResultRemembers(s: State, id: nat, kind: Kind, answer: Answer, receipt: Option<Receipt>)
    ensures ApplyResult(s, id, kind, answer, receipt).everReady == s.everReady
  {
    hide Fail, Finish;
    FailRemembers(s, Malformed);
    FinishRemembers(s, id, Answered(answer));
    if id in s.pending && receipt.Some? {
      var registered := Named(receipt.value) * s.subs.Keys;
      var behind := Late(s.subs, registered, receipt.value.commitVersion);
      FinishRemembers(s, id, Convergence(Pledge(receipt.value.commitVersion, answer, registered, behind)));
    }
  }

  lemma BlockRemembers(s: State, e: Error)
    ensures Block(s, e).everReady == s.everReady
  {
    hide SettleAll, ForgetEvents;
    SettleAllRemembers(s, AuthenticationBlocked, e.code);
  }

  lemma ErrorRemembers(s: State, target: Option<nat>, e: Error)
    ensures ApplyError(s, target, e).everReady == s.everReady
  {
    hide Fail, Finish, Block, RemoveSub;
    BlockRemembers(s, e);
    FailRemembers(s, e.code);
    if target.Some? {
      var id := target.value;
      FinishRemembers(s, id, Rejected(ServerError, e.code));
      var s1 := Notify(s, id, Trouble(e));
      RemoveRemembers(s1, id, false);
      if id in s1.subs { FailRemembers(s1.(subs := s1.subs[id := s1.subs[id].(sent := None)]), Internal); }
    }
  }

  lemma WelcomeRemembers(s: State, session: string)
    ensures ApplyWelcome(s, session).everReady == (s.everReady || (!s.ready && session == s.config.session))
  {
    hide Fail, Flush, Send;
    FailRemembers(s, Malformed);
    var s1 := s.(ready := true, everReady := true, resuming := false);
    if s1.attempt.Some? { SendRemembers(s1, Auth(s1.attempt.value.id, s1.attempt.value.credential)); }
    FlushRemembers(Introduce(s1));
  }

  lemma FrameRemembers(s: State, g: nat, f: ServerFrame)
    ensures OnFrame(s, g, f).everReady == (s.everReady || Welcomes(s, Incoming(g, f)))
  {
    hide Fail, ApplyTransition, ApplyLive, ApplyResult, ApplyError, ApplyWelcome, Flush;
    FailRemembers(s, Malformed);
    match f {
      case Welcome(session) => WelcomeRemembers(s, session);
      case AuthAccepted(_) => FlushRemembers(s.(attempt := None));
      case Deliver(id, t) => TransitionRemembers(s, id, t);
      case Live(id, e) => LiveRemembers(s, id, e);
      case Result(id, kind, answer, receipt) => ResultRemembers(s, id, kind, answer, receipt);
      case Failure(target, e) => ErrorRemembers(s, target, e);
      case _ =>
    }
  }

  lemma {:induction false} CancellingRemembers(s: State, id: nat, end: nat)
    ensures CancelInFlight(s, id, end).everReady == s.everReady
    decreases end - id
  {
    hide Send;
    if id < end {
      SendRemembers(s, Cancel(id));
      CancellingRemembers(SendCancel(s, id), id + 1, end);
    }
  }

  lemma SuspendRemembers(s: State)
    ensures OnSuspend(s).everReady == s.everReady
  {
    hide CancelInFlight, Settle, ForgetEvents;
    var s1 := CancelInFlight(s, 0, s.nextId);
    CancellingRemembers(s, 0, s.nextId);
    SettleRemembers(s1, map id | id in s1.pending && s1.pending[id].kind.Procedure?
                          :: Rejected(Suspension, AbandonCode(s1.pending[id])));
  }

  lemma ResumeRemembers(s: State)
    ensures OnResume(s).everReady == s.everReady
  {
    hide EnsureConnected, Rearm;
    RearmRemembers(s.(suspended := false));
    ConnectRemembers(Rearm(s.(suspended := false)).(resuming := true));
  }

  lemma RearmRemembers(s: State)
    ensures Rearm(s).everReady == s.everReady
  {
    hide ExpireAttempt;
    AttemptRemembers(s);
  }

  lemma AskRemembers(s: State, kind: Kind, requestId: string)
    ensures OnAsk(s, kind, requestId).everReady == s.everReady
  {
    hide EnsureConnected, Send;
    var f := Call(s.nextId, kind);
    if Fits(s.config, f) {
      var r := Request(kind, s.config.measure(f).value, s.env.now + MaxAge(s.config, kind), s.arms,
                       requestId, None, None);
      var s1 := EnsureConnected(Asked(s, r));
      ConnectRemembers(Asked(s, r));
      if s.nextId in s1.pending { SendRemembers(s1, Call(s.nextId, s1.pending[s.nextId].kind)); }
    }
  }

  lemma WatchRemembers(s: State, query: bool)
    ensures OnWatch(s, query).everReady == s.everReady
  {
    hide EnsureConnected, Send;
    var f := SubscribeFrame(s.nextId, None);
    if Fits(s.config, f) {
      var sub := Subscription(f, s.config.measure(f).value, None, false,
                              if query then Outcomes(None, false) else Events(None));
      var s1 := EnsureConnected(Watched(s, sub));
      ConnectRemembers(Watched(s, sub));
      if s.nextId in s1.subs { SendRemembers(s1, s1.subs[s.nextId].frame); }
    }
  }

  lemma RefreshRemembers(s: State, credential: Credential)
    ensures OnRefresh(s, credential).everReady == s.everReady
  {
    hide EnsureConnected, Send;
    var s1 := Present(s.(nextId := s.nextId + 1), s.nextId, credential);
    ConnectRemembers(s1);
    SendRemembers(s1, Auth(s.nextId, credential));
  }

  lemma CloseRemembers(s: State)
    ensures OnClose(s).everReady == s.everReady
  {
    hide Settle;
    SettleRemembers(s, map id | id in s.pending :: Rejected(ClientClosed, AbandonCode(s.pending[id])));
  }

  lemma RetryRemembers(s: State, id: nat)
    ensures OnRetryDue(s, id).everReady == s.everReady
  {
    hide EnsureConnected, Send;
    if id in s.subs {
      var s1 := SettleRetry(s, id);
      SendRemembers(s1, s1.subs[id].frame);
      ConnectRemembers(s1);
    }
  }

  lemma OpenRemembers(s: State, g: nat)
    ensures OnOpen(s, g).everReady == s.everReady
  {
    hide Send, Fail;
    var s1 := s.(open := true, hello := Some(s.credential));
    SendRemembers(s1, Hello(s.credential));
    FailRemembers(s1, Overloaded);
  }

  lemma LostRemembers(s: State, g: nat)
    ensures OnLost(s, g).everReady == s.everReady && OnReconnectDue(s).everReady == s.everReady
    ensures OnPing(s, g).everReady == s.everReady
  {
    hide LoseConnection, EnsureConnected, Send;
    LoseRemembers(s);
    ConnectRemembers(s.(reconnect := None));
    SendRemembers(s, Ping);
  }

  lemma LocalRemembers(s: State, key: nat, size: nat)
    ensures OnReserve(s, key, size).everReady == s.everReady && OnRelease(s, key).everReady == s.everReady
  {
    hide Admits;
  }

  lemma AttemptRemembers(s: State)
    ensures ExpireAttempt(s).everReady == s.everReady
  {
    hide ForgetEvents;
  }

  lemma OtherRemembers(s: State, e: Event)
    requires !e.Incoming?
    ensures React(s, e).everReady == s.everReady
  {
    hide OnOpen, OnLost, OnReconnectDue, ExpireAttempt, Expire, OnRetryDue, OnPing, OnSuspend, OnResume, OnAsk, Abort,
         OnWatch, RemoveSub, OnRefresh, OnReserve, OnRelease, OnClose, OnFrame;
    match e {
      case Opened(g) => OpenRemembers(s, g);
      case Lost(g) => LostRemembers(s, g);
      case ReconnectDue => LostRemembers(s, 0);
      case AttemptDue => AttemptRemembers(s);
      case RequestDue(id) => ExpireRemembers(s, id);
      case RetryDue(id) => RetryRemembers(s, id);
      case PingDue(g) => LostRemembers(s, g);
      case Suspend => SuspendRemembers(s);
      case Resume => ResumeRemembers(s);
      case Ask(kind, requestId) => AskRemembers(s, kind, requestId);
      case AbortCall(id) => ExpireRemembers(s, id);
      case Watch(query) => WatchRemembers(s, query);
      case Unwatch(id) => RemoveRemembers(s, id, true);
      case Refresh(credential) => RefreshRemembers(s, credential);
      case Reserve(key, size) => LocalRemembers(s, key, size);
      case Release(key) => LocalRemembers(s, key, 0);
      case Close => CloseRemembers(s);
    }
  }

  lemma StepRemembers(s: State, env: Env, e: Event)
    ensures Step(s, env, e).everReady == (s.everReady || Welcomes(s, e))
  {
    hide React, OnFrame;
    var s1 := s.(env := env);
    if e.Incoming? {
      FrameRemembers(s1, e.generation, e.frame);
      FrameIsHandled(s1, e.generation, e.frame);
    } else {
      OtherRemembers(s1, e);
    }
  }

  lemma FrameIsHandled(s: State, g: nat, f: ServerFrame)
    ensures React(s, Incoming(g, f)) == OnFrame(s, g, f)
  {
    hide OnFrame;
  }

  ghost predicate WelcomedAt(b: Beginning, ms: seq<Moment>, i: nat) {
    i < |ms| && Welcomes(Run(b, ms[..i]), ms[i].event)
  }

  ghost predicate Welcomed(b: Beginning, ms: seq<Moment>) {
    exists i: nat :: WelcomedAt(b, ms, i)
  }

  lemma WelcomedMore(b: Beginning, ms: seq<Moment>)
    requires ms != []
    ensures var n := |ms| - 1;
            Welcomed(b, ms) <==> Welcomed(b, ms[..n]) || Welcomes(Run(b, ms[..n]), ms[n].event)
  {
    hide Welcomes, Run;
    var n := |ms| - 1;
    if i: nat :| WelcomedAt(b, ms[..n], i) {
      assert ms[..n][..i] == ms[..i];
      assert WelcomedAt(b, ms, i);
    }
    if i: nat :| WelcomedAt(b, ms, i) && i < n {
      assert ms[..n][..i] == ms[..i];
      assert WelcomedAt(b, ms[..n], i);
    }
    if Welcomes(Run(b, ms[..n]), ms[n].event) { assert WelcomedAt(b, ms, n); }
  }

  lemma {:induction false} EverReadyIsWelcomed(b: Beginning, ms: seq<Moment>)
    ensures Run(b, ms).everReady <==> Welcomed(b, ms)
  {
    hide Welcomes, Step, Start;
    if ms == [] {
      StartIsNew(b);
    } else {
      var n := |ms| - 1;
      EverReadyIsWelcomed(b, ms[..n]);
      StepRemembers(Run(b, ms[..n]), ms[n].env, ms[n].event);
      WelcomedMore(b, ms);
    }
  }

  /**
   * In every run a client that is neither ready nor resuming, nor halted, says that it
   * is reconnecting if the server has welcomed it, and that it is connecting if not.
   */
  lemma PhasesRememberWelcomes(b: Beginning, ms: seq<Moment>)
    ensures PhaseOf(Run(b, ms)).Reconnecting? ==> Welcomed(b, ms)
    ensures PhaseOf(Run(b, ms)).Connecting? ==> !Welcomed(b, ms)
  {
    hide Run, Welcomed;
    EverReadyIsWelcomed(b, ms);
  }

  lemma StartIsNew(b: Beginning)
    ensures !Start(b.config, b.env, b.credential, b.suspended).everReady
  {
    hide EnsureConnected;
    ConnectRemembers(State(
      b.config, b.env, false, false, false, 0,
      false, false, false, b.suspended, false, false,
      None, 0, 1, 0, b.credential, None, None,
      map[], map[], 0, 0, map[],
      Log(map[], map[], map[], {}, [], [])));
  }
}
