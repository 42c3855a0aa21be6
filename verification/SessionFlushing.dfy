/** Finishing, expiring, canceling and flushing requests keep the invariants. */
module SessionFlushing {
  import opened Basics
  import opened Protocol
  import opened SessionSpec
  import opened SessionInvariants
  import opened SessionAtoms
  import opened SessionConnection
  import opened SessionSending

  /** Requests may disappear but do not change. */
  ghost predicate Shrinks(a: map<nat, Request>, b: map<nat, Request>) {
    forall id | id in b :: id in a && b[id] == a[id]
  }

  /** What losing a connection can and cannot touch. */
  ghost predicate Afterwards(s: State, t: State) {
    && Shrinks(s.pending, t.pending)
    && t.subs.Keys <= s.subs.Keys
    && t.nextId == s.nextId && t.arms == s.arms && t.config == s.config && t.env.now == s.env.now
    && t.closed == s.closed && t.suspended == s.suspended && t.blocked == s.blocked
  }

  lemma FailAfterwards(s: State, code: Code)
    ensures Afterwards(s, Fail(s, code))
    ensures Fail(s, code).socket ==> s.failed || s.closed
  {
    hide SettleAll, Total;
    SettleAllFrame(s, PermanentFailure, code);
    SettleAllEmpties(s, PermanentFailure, code);
  }

  lemma SettleAllFrame(s: State, cause: Cause, code: Code)
    ensures OnlySettled(s, SettleAll(s, cause, code))
  {
    hide Settle, OnlySettled;
    SettleFrame(s, map id | id in s.pending :: Rejected(cause, code));
  }

  lemma SettleAllEmpties(s: State, cause: Cause, code: Code)
    ensures SettleAll(s, cause, code).pending == map[]
  {
    hide Settle;
    SettleEverything(s, map id | id in s.pending :: Rejected(cause, code));
  }

  lemma LoseAfterwards(s: State)
    ensures Afterwards(s, LoseConnection(s)) && !LoseConnection(s).socket
  {
    hide SettleInFlight, ScheduleReconnect, Shrinks, Retire;
    var s2 := Retire(SettleInFlight(s)).(resuming := false);
    LetGoAfterwards(s);
    ScheduleAfterwards(s2);
    AfterwardsTransitive(s, s2, ScheduleReconnect(s2));
  }

  lemma LetGoAfterwards(s: State)
    ensures var t := Retire(SettleInFlight(s)).(resuming := false);
            Afterwards(s, t) && !t.socket && !t.resuming && t.failed == s.failed
  {
    hide SettleInFlight, Shrinks, Total;
    SettleInFlightFrame(s);
    SettleInFlightShrinks(s);
  }

  lemma ScheduleAfterwards(s: State)
    requires !s.resuming
    ensures Afterwards(s, ScheduleReconnect(s))
    ensures !s.socket && !s.failed && !s.closed ==> !ScheduleReconnect(s).socket
  {
    hide Fail;
    FailAfterwards(s, Internal);
    assert s.(resuming := false) == s;
  }

  lemma AfterwardsTransitive(a: State, b: State, c: State)
    requires Afterwards(a, b) && Afterwards(b, c)
    ensures Afterwards(a, c)
  {
  }

  lemma SettleInFlightShrinks(s: State)
    ensures Shrinks(s.pending, SettleInFlight(s).pending)
  {
    SettleFrame(s, map id | id in s.pending && InFlight(s.pending[id], s.generation)
                     :: Rejected(ConnectionLost, Indeterminate));
    hide Settle;
  }

  lemma SendAfterwards(s: State, f: ClientFrame)
    ensures Afterwards(s, Send(s, f))
    ensures var t := Send(s, f); t == s || t == Sent(s, f) || !t.socket
    ensures Flushing(s) ==> Flushing(Send(s, f))
  {
    hide LoseConnection;
    LoseAfterwards(s);
  }

  lemma FewerStanding(s: State, t: State, done: set<nat>)
    requires OnlySettled(s, t) && t.pending == s.pending - done
    requires Standing(s)
    ensures Standing(t)
  {
  }

  lemma SettleKeeps(s: State, done: map<nat, Settlement>, w: World, v: World)
    requires Inv(s, w) && Agree(w, v, done.Keys) && done.Keys <= s.pending.Keys
    requires forall id | id in done :: EndingAllowed(s, id, done[id], v)
    ensures Inv(Settle(s, done), v) && Resolves(s.log, Settle(s, done).log)
    ensures (forall id | id in done :: !FromServer(done[id])) ==> Extends(s.log, Settle(s, done).log)
  {
    hide Data, Resolves, Extends, EndingAllowed, Settle, Standing;
    SettleKeepsData(s, done, w, v);
    SettleFrame(s, done);
    FewerStanding(s, Settle(s, done), done.Keys);
  }

  lemma FinishKeeps(s: State, id: nat, how: Settlement, w: World)
    requires Inv(s, w)
    requires id in s.pending ==> EndingAllowed(s, id, how, w)
    ensures Inv(Finish(s, id, how), w) && Resolves(s.log, Finish(s, id, how).log)
    ensures !FromServer(how) ==> Extends(s.log, Finish(s, id, how).log)
  {
    hide Inv, Resolves, Extends, EndingAllowed, Settle;
    ExtendsItself(s.log);
    ResolvesItself(s.log);
    if id in s.pending { SettleKeeps(s, map[id := how], w, w); }
  }

  lemma FinishFrame(s: State, id: nat, how: Settlement)
    ensures OnlySettled(s, Finish(s, id, how)) && Shrinks(s.pending, Finish(s, id, how).pending)
    ensures id !in Finish(s, id, how).pending
  {
    if id in s.pending { SettleFrame(s, map[id := how]); }
    hide Settle;
  }

  lemma InvFlight(s: State, w: World)
    requires Inv(s, w)
    ensures Flight(s.log.wire, s.socket && s.ready, s.generation, s.attempt, s.pending)
  {
  }

  /** Rejecting a request for a local reason with a code that is honest about what was sent. */
  lemma RejectKeeps(s: State, id: nat, r: Request, cause: Cause, code: Code, w: World)
    requires Inv(s, w)
    requires id in s.pending ==> s.pending[id] == r
    requires LocalCause(cause) && r.sent.Some? && !r.kind.Query? ==> !ClaimsNotRun(code)
    ensures Inv(Finish(s, id, Rejected(cause, code)), w)
    ensures Resolves(s.log, Finish(s, id, Rejected(cause, code)).log)
    ensures !cause.ServerError? ==> Extends(s.log, Finish(s, id, Rejected(cause, code)).log)
  {
    hide Inv, Resolves, Extends, EndingAllowed, Flight, Finish;
    if id in s.pending {
      InvFlight(s, w);
      RejectionAllowed(s, id, cause, code, w);
    }
    FinishKeeps(s, id, Rejected(cause, code), w);
  }

  lemma SendCancelKeeps(s: State, id: nat, w: World)
    requires Inv(s, w)
    ensures Inv(SendCancel(s, id), w) && Extends(s.log, SendCancel(s, id).log)
    ensures Afterwards(s, SendCancel(s, id))
    ensures Flushing(s) ==> Flushing(SendCancel(s, id))
  {
    hide Inv, Extends, Send;
    ExtendsItself(s.log);
    SendKeeps(s, Cancel(id), w);
    SendAfterwards(s, Cancel(id));
  }

  /** Cancel over the wire if possible, then end the request. */
  lemma CancelThenReject(s: State, id: nat, cause: Cause, code: Code, w: World)
    requires Inv(s, w) && id in s.pending
    requires LocalCause(cause) && (s.pending[id].sent.Some? && !s.pending[id].kind.Query? ==> !ClaimsNotRun(code))
    ensures var t := Finish(SendCancel(s, id), id, Rejected(cause, code));
            Inv(t, w) && Extends(s.log, t.log) && (Flushing(s) ==> Flushing(t)) && t.nextId == s.nextId
            && Shrinks(s.pending, t.pending)
  {
    hide Inv, Extends, Finish, SendCancel;
    var s1 := SendCancel(s, id);
    SendCancelKeeps(s, id, w);
    RejectKeeps(s1, id, s.pending[id], cause, code, w);
    FinishFrame(s1, id, Rejected(cause, code));
    ExtendsTransitive(s.log, s1.log, Finish(s1, id, Rejected(cause, code)).log);
  }

  lemma ExpireKeeps(s: State, id: nat, w: World)
    requires Inv(s, w)
    ensures Inv(Expire(s, id), w) && Extends(s.log, Expire(s, id).log)
    ensures Flushing(s) ==> Flushing(Expire(s, id))
    ensures Expire(s, id).nextId == s.nextId
  {
    hide Inv, Extends, Finish, SendCancel;
    ExtendsItself(s.log);
    if id in s.pending { CancelThenReject(s, id, Deadline, ExpiryCode(s.pending[id]), w); }
  }

  lemma AbortKeeps(s: State, id: nat, w: World)
    requires Inv(s, w)
    ensures Inv(Abort(s, id), w) && Extends(s.log, Abort(s, id).log)
  {
    hide Inv, Extends, Finish, SendCancel;
    ExtendsItself(s.log);
    if id in s.pending { CancelThenReject(s, id, Canceled, AbandonCode(s.pending[id]), w); }
  }

  lemma SendSubAfterwards(s: State, id: nat)
    requires id in s.subs
    ensures Flushing(s) ==> Flushing(SendSub(s, id))
    ensures SendSub(s, id).nextId == s.nextId
  {
    hide Send, Shrinks, Flushing;
    var s1 := Send(s, s.subs[id].frame);
    SendAfterwards(s, s.subs[id].frame);
    if Flushing(s) && id in s1.subs { MarkedFlushing(s1, id); }
  }

  lemma MarkedFlushing(s: State, id: nat)
    requires Flushing(s) && id in s.subs
    ensures Flushing(s.(subs := s.subs[id := s.subs[id].(sent := Some(s.generation))]))
  {
  }

  lemma {:induction false} FlushSubsKeeps(s: State, id: nat, end: nat, w: World)
    requires Inv(s, w) && Flushing(s)
    ensures Inv(FlushSubs(s, id, end), w) && Extends(s.log, FlushSubs(s, id, end).log)
    ensures Flushing(FlushSubs(s, id, end)) && FlushSubs(s, id, end).nextId == s.nextId
    decreases end - id
  {
    hide Inv, Extends, SendSub;
    ExtendsItself(s.log);
    if id < end {
      var s1 := if id in s.subs && !s.subs[id].waiting && s.subs[id].sent != Some(s.generation)
                then SendSub(s, id) else s;
      if id in s.subs { SendSubKeeps(s, id, w); SendSubAfterwards(s, id); }
      FlushSubsKeeps(s1, id + 1, end, w);
      ExtendsTransitive(s.log, s1.log, FlushSubs(s1, id + 1, end).log);
    }
  }

  lemma {:induction false} FlushRequestsKeeps(s: State, id: nat, end: nat, w: World)
    requires Inv(s, w) && Flushing(s)
    ensures Inv(FlushRequests(s, id, end), w) && Extends(s.log, FlushRequests(s, id, end).log)
    decreases end - id
  {
    hide Inv, Extends, SendRequest, Expire, Flushing;
    ExtendsItself(s.log);
    if id < end {
      var s1 := if id !in s.pending then s
                else if s.pending[id].expiresAt <= s.env.now then Expire(s, id)
                else if s.pending[id].sent != Some(s.generation) then SendRequest(s, id)
                else s;
      ExpireKeeps(s, id, w);
      if id in s.pending && s.pending[id].sent != Some(s.generation) { SendRequestKeeps(s, id, w); }
      FlushRequestsKeeps(s1, id + 1, end, w);
      ExtendsTransitive(s.log, s1.log, FlushRequests(s1, id + 1, end).log);
    }
  }

  lemma FlushKeeps(s: State, w: World)
    requires Inv(s, w)
    ensures Inv(Flush(s), w) && Extends(s.log, Flush(s).log)
  {
    hide Inv, Extends;
    ExtendsItself(s.log);
    if CanSend(s) {
      FlushSubsKeeps(s, 0, s.nextId, w);
      var s1 := FlushSubs(s, 0, s.nextId);
      FlushRequestsKeeps(s1, 0, s.nextId, w);
      ExtendsTransitive(s.log, s1.log, FlushRequests(s1, 0, s.nextId).log);
    }
  }

  lemma {:induction false} CancelInFlightKeeps(s: State, id: nat, end: nat, w: World)
    requires Inv(s, w)
    ensures Inv(CancelInFlight(s, id, end), w) && Extends(s.log, CancelInFlight(s, id, end).log)
    ensures CancelInFlight(s, id, end).closed == s.closed
    decreases end - id
  {
    hide Inv, Extends, SendCancel;
    ExtendsItself(s.log);
    if id < end {
      var s1 := SendCancel(s, id);
      SendCancelKeeps(s, id, w);
      CancelInFlightKeeps(s1, id + 1, end, w);
      ExtendsTransitive(s.log, s1.log, CancelInFlight(s1, id + 1, end).log);
    }
  }
}
