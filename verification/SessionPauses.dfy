/**
 * What a client does of its own accord, in every run: cancelling, trying again,
 * keeping a connection alive, going to sleep and waking up.
 */
module SessionPauses {
  import opened Basics
  import opened Protocol
  import opened SessionSpec
  import opened SessionInvariants
  import opened SessionAtoms
  import opened SessionConnection
  import opened SessionSending
  import opened SessionFlushing
  import opened SessionResending
  import opened SessionRuns
  import opened SessionTheorems
  import opened SessionEffects

  /** A procedure that is on the connection, so that the server can be told to cancel it. */
  predicate OnConnection(r: Request, generation: nat) {
    r.kind == Procedure && r.sent == Some(generation)
  }

  // ----------------------------------------------------------------- cancelling

  /**
   * Aborting ends a procedure with what is known of whether it ran, and cancels it on
   * the connection it is on; a query or a mutation cannot be aborted.
   */
  lemma AbortEnds(b: Beginning, ms: seq<Moment>, m: Moment, id: nat)
    requires Follows(b, ms, m) && m.event == AbortCall(id)
    ensures var s, t := Run(b, ms), Run(b, ms + [m]);
            if id in s.pending && s.pending[id].kind == Procedure then
              var cancels := OnConnection(s.pending[id], s.generation) && Able(s);
              && id !in t.pending && id in t.log.settled
              && (!cancels || m.env.sends > 0 ==>
                    && t.log.settled ==
                       s.log.settled[id := Settled(Procedure, Rejected(Canceled, GivenUp(s.pending[id])))]
                    && t.log.wire == s.log.wire + (if cancels then [Transmission(s.generation, Cancel(id))] else []))
            else t == s.(env := m.env)
  {
    hide Run, Possible, GivenUp;
    LastStep(b, ms, m);
    var s := Run(b, ms).(env := m.env);
    if id in s.pending && s.pending[id].kind == Procedure {
      AbortedEnds(s, id);
      GoneIsSettled(b, ms, m, id);
    }
  }

  lemma AbortedEnds(s: State, id: nat)
    requires id in s.pending && s.pending[id].kind == Procedure
    ensures var t, cancels := Abort(s, id), OnConnection(s.pending[id], s.generation) && Able(s);
            && id !in t.pending
            && (!cancels || s.env.sends > 0 ==>
                  && t.log.settled ==
                     s.log.settled[id := Settled(Procedure, Rejected(Canceled, GivenUp(s.pending[id])))]
                  && t.log.wire == s.log.wire + (if cancels then [Transmission(s.generation, Cancel(id))] else []))
  {
    hide Finish, Send;
    var s1, how := SendCancel(s, id), Rejected(Canceled, AbandonCode(s.pending[id]));
    FinishFrame(s1, id, how);
    if s.socket && s.open && s.env.sends > 0 { FrameSent(s, Cancel(id)); }
    if id in s1.pending { FinishEnds(s1, id, how); }
  }

  // --------------------------------------------------------------- trying again

  /** A subscription whose wait is over is asked for again from the cursor it holds. */
  lemma RetryResubscribes(b: Beginning, ms: seq<Moment>, m: Moment, id: nat)
    requires Follows(b, ms, m) && m.event == RetryDue(id) && Able(Run(b, ms)) && m.env.sends > 0
    ensures var s, t := Run(b, ms), Run(b, ms + [m]);
            && t.log.wire == s.log.wire + [Transmission(s.generation, SubscribeFrame(id, ResumeAt(s.subs[id])))]
            && t.subs == s.subs[id := s.subs[id].(waiting := false, sent := Some(s.generation))]
  {
    hide Run, Possible, Inv, SendSub, Framed, Promises;
    LastStep(b, ms, m);
    RunInvariant(b, ms);
    var s := Run(b, ms).(env := m.env);
    InvFramed(Run(b, ms), World(ArbitraryServer, {}, Promises(b, ms), None, Now(b, ms)));
    SubFramed(s.subs, id);
    SubSent(SettleRetry(s, id), id);
  }

  lemma SubFramed(subs: map<nat, Subscription>, id: nat)
    requires Framed(subs) && id in subs
    ensures subs[id].frame == SubscribeFrame(id, ResumeAt(subs[id]))
  {
  }

  /** Only an open and ready connection is pinged, once each time. */
  lemma PingIsSent(b: Beginning, ms: seq<Moment>, m: Moment, g: nat)
    requires Follows(b, ms, m) && m.event == PingDue(g) && m.env.sends > 0
    ensures var s, t := Run(b, ms), Run(b, ms + [m]);
            var pings := s.socket && s.open && s.ready && s.generation == g;
            && t.log == (if pings then s.log.(wire := s.log.wire + [Transmission(g, Ping)]) else s.log)
            && t.pending == s.pending && t.subs == s.subs
  {
    hide Run, Possible;
    LastStep(b, ms, m);
  }

  // ------------------------------------------------------------ sleeping, waking

  /** The frames that cancel what is on a connection, in ascending id. */
  function Cancels(pending: map<nat, Request>, generation: nat, id: nat, end: nat): seq<ClientFrame>
    decreases end - id
  {
    if id >= end then []
    else (if id in pending && OnConnection(pending[id], generation) then [Cancel(id)] else [])
         + Cancels(pending, generation, id + 1, end)
  }

  /** Only these frames have gone out. */
  ghost predicate OnlySent(s: State, t: State, frames: seq<ClientFrame>) {
    t == s.(env := s.env.(sends := t.env.sends), log := s.log.(wire := s.log.wire + OnWire(s.generation, frames)))
  }

  lemma SentBoth(s: State, t: State, u: State, a: seq<ClientFrame>, b: seq<ClientFrame>)
    requires OnlySent(s, t, a) && OnlySent(t, u, b)
    ensures OnlySent(s, u, a + b)
  {
    hide OnWire;
    OnWireJoins(s.generation, a, b);
  }

  lemma CancelSends(s: State, id: nat)
    requires Able(s) && s.env.sends > 0
    ensures var t := SendCancel(s, id);
            && Able(t) && t.pending == s.pending && t.generation == s.generation && t.env.sends >= s.env.sends - 1
            && OnlySent(s, t, if id in s.pending && OnConnection(s.pending[id], s.generation) then [Cancel(id)] else [])
  {
    hide Send, OnlySent;
    if id in s.pending && OnConnection(s.pending[id], s.generation) { OneCancel(s, id); } else { NothingSent(s); }
  }

  lemma {:induction false} CancellingSends(s: State, id: nat, end: nat)
    requires Able(s) && s.env.sends >= end - id
    ensures OnlySent(s, CancelInFlight(s, id, end), Cancels(s.pending, s.generation, id, end))
    decreases end - id
  {
    hide SendCancel, OnlySent;
    if id < end {
      var s1 := SendCancel(s, id);
      CancelSends(s, id);
      CancellingSends(s1, id + 1, end);
      SentBoth(s, s1, CancelInFlight(s, id, end),
               if id in s.pending && OnConnection(s.pending[id], s.generation) then [Cancel(id)] else [],
               Cancels(s.pending, s.generation, id + 1, end));
    } else {
      NothingSent(s);
    }
  }

  lemma NothingSent(s: State)
    ensures OnlySent(s, s, [])
  {
    assert s.log.wire + [] == s.log.wire;
  }

  lemma OneCancel(s: State, id: nat)
    requires Able(s) && s.env.sends > 0
    ensures var t := Send(s, Cancel(id));
            && Able(t) && t.pending == s.pending && t.generation == s.generation && t.env.sends == s.env.sends - 1
            && OnlySent(s, t, [Cancel(id)])
  {
    hide OnWire;
    OneOnWire(s.generation, Cancel(id));
  }

  lemma {:induction false} NothingToCancel(s: State, id: nat, end: nat)
    requires !Able(s)
    ensures CancelInFlight(s, id, end) == s
    decreases end - id
  {
    if id < end { NothingToCancel(s, id + 1, end); }
  }

  /**
   * Suspending cancels the procedures on the connection, in ascending id, ends every
   * procedure with what is known of whether it ran, and keeps all other requests and
   * every subscription.
   */
  lemma SuspensionIsExact(b: Beginning, ms: seq<Moment>, m: Moment)
    requires Follows(b, ms, m) && m.event == Suspend && !Run(b, ms).closed && !Run(b, ms).suspended
    requires m.env.sends >= Run(b, ms).nextId
    ensures var s, t := Run(b, ms), Run(b, ms + [m]);
            && t.log.wire ==
               s.log.wire + OnWire(s.generation, if Able(s) then Cancels(s.pending, s.generation, 0, s.nextId) else [])
            && (forall id | id in s.pending && s.pending[id].kind == Procedure ::
                  && id !in t.pending && id in t.log.settled
                  && t.log.settled[id] == Settled(Procedure, Rejected(Suspension, GivenUp(s.pending[id]))))
            && (forall id | id in s.pending && s.pending[id].kind != Procedure ::
                  id in t.pending && t.pending[id] == s.pending[id])
            && t.subs.Keys == s.subs.Keys
            && (forall id | id in s.subs && s.subs[id].stream.Outcomes? :: t.subs[id] == s.subs[id])
            && t.log.delivered == s.log.delivered
  {
    hide Run, Possible, OnSuspend, GivenUp, OnWire, Cancels;
    LastStep(b, ms, m);
    StepSuspends(Run(b, ms), m.env);
    SuspendedExactly(Run(b, ms).(env := m.env));
  }

  lemma SuspendedExactly(s: State)
    requires !s.closed && !s.suspended && s.env.sends >= s.nextId
    ensures var t := OnSuspend(s);
            && t.log.wire ==
               s.log.wire + OnWire(s.generation, if Able(s) then Cancels(s.pending, s.generation, 0, s.nextId) else [])
            && (forall id | id in s.pending && s.pending[id].kind == Procedure ::
                  && id !in t.pending && id in t.log.settled
                  && t.log.settled[id] == Settled(Procedure, Rejected(Suspension, GivenUp(s.pending[id]))))
            && (forall id | id in s.pending && s.pending[id].kind != Procedure ::
                  id in t.pending && t.pending[id] == s.pending[id])
            && t.subs == ForgetEvents(s.subs) && t.log.delivered == s.log.delivered
  {
    hide CancelInFlight, SettleProcedures, GivenUp, ForgetEvents, Cancels, OnWire;
    NothingSent(s);
    if Able(s) { CancellingSends(s, 0, s.nextId); } else { NothingToCancel(s, 0, s.nextId); }
    ProceduresEnd(CancelInFlight(s, 0, s.nextId));
  }

  lemma ProceduresEnd(s: State)
    ensures var t := SettleProcedures(s);
            && OnlySettled(s, t)
            && (forall id | id in s.pending && s.pending[id].kind == Procedure ::
                  && id !in t.pending && id in t.log.settled
                  && t.log.settled[id] == Settled(Procedure, Rejected(Suspension, GivenUp(s.pending[id]))))
            && (forall id | id in s.pending && s.pending[id].kind != Procedure ::
                  id in t.pending && t.pending[id] == s.pending[id])
  {
    hide Settle;
    var done := map id | id in s.pending && s.pending[id].kind.Procedure?
                  :: Rejected(Suspension, AbandonCode(s.pending[id]));
    SettleFrame(s, done);
    SettleEnds(s, done);
  }

  /** Waking up dials, unless a credential's time is over or the server asked to wait. */
  lemma ResumeDials(b: Beginning, ms: seq<Moment>, m: Moment)
    requires Follows(b, ms, m) && m.event == Event.Resume && Run(b, ms).suspended && Usable(Run(b, ms))
    ensures var s, t := Run(b, ms), Run(b, ms + [m]);
            var late := s.attempt.Some? && s.attempt.value.expiresAt <= m.env.now;
            && (late ==> !t.suspended && t.blocked && !t.socket && t.attempt.None?)
            && (!late && s.notBefore <= m.env.now && m.env.dial ==>
                  !t.suspended && !t.blocked && t.resuming && t.socket && t.generation == s.generation + 1 &&
                  t.log.wire == s.log.wire &&
                  t.attempt == if s.attempt.None? then None else Some(s.attempt.value.(armed := Some(s.arms))))
  {
    hide Run, Possible, OnResume;
    LastStep(b, ms, m);
    ConnectionDiscipline(b, ms);
    Woken(Run(b, ms).(env := m.env));
  }

  lemma Woken(s: State)
    requires s.suspended && Usable(s) && !s.socket
    ensures var t := OnResume(s);
            var late := s.attempt.Some? && s.attempt.value.expiresAt <= s.env.now;
            && (late ==> !t.suspended && t.blocked && !t.socket && t.attempt.None?)
            && (!late && s.notBefore <= s.env.now && s.env.dial ==>
                  !t.suspended && !t.blocked && t.resuming && t.socket && t.generation == s.generation + 1 &&
                  t.log.wire == s.log.wire &&
                  t.attempt == if s.attempt.None? then None else Some(s.attempt.value.(armed := Some(s.arms))))
  {
    hide ScheduleReconnect, ForgetEvents;
  }

  /** A credential that is not answered in time blocks the client until another is given. */
  lemma AttemptBlocks(b: Beginning, ms: seq<Moment>, m: Moment)
    requires Follows(b, ms, m) && m.event == AttemptDue
    ensures var s, t := Run(b, ms), Run(b, ms + [m]);
            && t.blocked && !t.socket && t.attempt.None?
            && t.pending == s.pending && t.subs.Keys == s.subs.Keys && t.log == s.log
  {
    hide Run, Possible;
    LastStep(b, ms, m);
  }
}
