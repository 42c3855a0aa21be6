/** Losing, failing, scheduling and dialing keep the invariants. */
module SessionConnection {
  import opened Basics
  import opened Protocol
  import opened SessionSpec
  import opened SessionInvariants
  import opened SessionAtoms

  lemma ExtendsTransitive(a: Log, b: Log, c: Log)
    requires Extends(a, b) && Extends(b, c)
    ensures Extends(a, c)
  {
    forall id, i | |DeliveredTo(a.delivered, id)| <= i < |DeliveredTo(c.delivered, id)|
      ensures Aside(DeliveredTo(c.delivered, id)[i])
    {
      if i < |DeliveredTo(b.delivered, id)| {
        assert DeliveredTo(c.delivered, id)[i] == DeliveredTo(b.delivered, id)[i];
      }
    }
  }

  /** No transmitted procedure is waiting. */
  ghost predicate Grounded(wire: seq<Transmission>, pending: map<nat, Request>) {
    forall id | id in pending && pending[id].kind.Procedure? :: Transmissions(wire, id) == []
  }

  lemma GroundedFlight(wire: seq<Transmission>, live: bool, generation: nat, attempt: Option<Attempt>,
                       pending: map<nat, Request>, live': bool, generation': nat, attempt': Option<Attempt>)
    requires Flight(wire, live, generation, attempt, pending) && Grounded(wire, pending)
    ensures Flight(wire, live', generation', attempt', pending)
  {
    forall id | id in pending
      ensures RequestFlight(wire, live', generation', attempt', id, pending[id])
    {
      assert RequestFlight(wire, live, generation, attempt, id, pending[id]);
    }
  }

  /** A procedure can only be in flight on a live connection. */
  lemma DeadIsGrounded(s: State)
    requires Flight(s.log.wire, s.socket && s.ready, s.generation, s.attempt, s.pending)
    requires !(s.socket && s.ready)
    ensures Grounded(s.log.wire, s.pending)
  {
    forall id | id in s.pending && s.pending[id].kind.Procedure?
      ensures Transmissions(s.log.wire, id) == []
    {
      assert RequestFlight(s.log.wire, s.socket && s.ready, s.generation, s.attempt, id, s.pending[id]);
    }
  }

  lemma RetireKeepsData(s: State, w: World)
    requires Data(s, w) && Grounded(s.log.wire, s.pending)
    ensures Data(Retire(s), w)
  {
    hide Books, Ledgered, Truthful, Chained, Converges, Timers, Flight, Carried, Endings, Admitted, Grounded;
    ForgetCarried(s);
    SubsKeepData(s, ForgetEvents(s.subs), w);
    CarriedOn(s.log.wire, s.socket, s.generation, ForgetEvents(s.subs), s.pending, s.log.wire, false, s.generation);
    GroundedFlight(s.log.wire, s.socket && s.ready, s.generation, s.attempt, s.pending,
                   false, s.generation, s.attempt);
  }

  lemma ForgetCarried(s: State)
    requires Carried(s.log.wire, s.socket, s.generation, s.subs, s.pending)
    ensures Carried(s.log.wire, s.socket, s.generation, ForgetEvents(s.subs), s.pending)
  {
    hide Carried;
    CarriedFewer(s.log.wire, s.socket, s.generation, s.subs, s.pending, ForgetEvents(s.subs), s.pending);
  }

  lemma DropAllBooks(s: State)
    requires s.pending == map[]
    requires Books(s.config, s.subs, s.pending, s.others, s.items, s.bytes)
    ensures Books(s.config, map[], map[], s.others, DropAll(s).items, DropAll(s).bytes)
  {
    hide RequestBytes;
    assert SubBytes(map[]) == map[];
    assert Total(map[]) == 0;
  }

  lemma DropAllKeepsData(s: State, w: World)
    requires Data(s, w) && s.pending == map[]
    ensures Data(DropAll(s), w)
  {
    hide Books, Timers, Flight, Carried, Endings, Admitted, Increasing;
    DropAllBooks(s);
    DropAllCarried(s);
  }

  lemma DropAllCarried(s: State)
    requires s.pending == map[] && Carried(s.log.wire, s.socket, s.generation, s.subs, s.pending)
    ensures Carried(s.log.wire, s.socket, s.generation, map[], map[])
  {
    hide Carried;
    CarriedFewer(s.log.wire, s.socket, s.generation, s.subs, s.pending, map[], map[]);
  }

  lemma SettleAllKeepsData(s: State, cause: Cause, code: Code, w: World)
    requires Data(s, w) && !LocalCause(cause) && !cause.ServerError?
    ensures Data(SettleAll(s, cause, code), w) && Extends(s.log, SettleAll(s, cause, code).log)
    ensures SettleAll(s, cause, code).pending == map[]
  {
    hide Books, Ledgered, Truthful, Chained, Converges, Timers, Flight, Carried, Endings, Admitted, Extends,
         EndingAllowed;
    hide Settle;
    var done := map id | id in s.pending :: Rejected(cause, code);
    forall id | id in done
      ensures EndingAllowed(s, id, done[id], w)
    {
      RejectionAllowed(s, id, cause, code, w);
    }
    SettleKeepsData(s, done, w, w);
    SettleEverything(s, done);
  }

  lemma SettleEverything(s: State, done: map<nat, Settlement>)
    requires done.Keys == s.pending.Keys
    ensures Settle(s, done).pending == map[]
  {
  }

  /** Nothing is in flight once nothing is pending. */
  lemma EmptyFlight(wire: seq<Transmission>, live: bool, generation: nat, attempt: Option<Attempt>)
    ensures Flight(wire, live, generation, attempt, map[]) && Grounded(wire, map[])
  {
  }

  lemma FailKeeps(s: State, code: Code, w: World)
    requires Data(s, w)
    requires s.failed || s.closed ==> Inv(s, w)
    ensures Inv(Fail(s, code), w) && Extends(s.log, Fail(s, code).log)
  {
    hide Books, Ledgered, Truthful, Chained, Converges, Timers, Flight, Carried, Endings, Admitted, Extends, Grounded;
    hide SettleAll, NotifyAll, DropAll;
    if s.failed || s.closed {
      ExtendsItself(s.log);
    } else {
      var a := SettleAll(s, PermanentFailure, code);
      SettleAllKeepsData(s, PermanentFailure, code, w);
      FailTail(s, a, code, w);
      ExtendsTransitive(s.log, a.log, Fail(s, code).log);
    }
  }

  lemma MutedIsVoiced(a: Log, t: State)
    requires Extends(a, t.log)
    ensures Tells(a, t)
  {
  }

  lemma ResolvesItself(a: Log)
    ensures Resolves(a, a)
  {
  }

  lemma GrowsItself(a: Log)
    ensures Grows(a, a)
  {
  }

  lemma GrowsTransitive(a: Log, b: Log, c: Log)
    requires Grows(a, b) && Grows(b, c)
    ensures Grows(a, c)
  {
  }

  /** What is not reported on later leaves what was. */
  lemma StillVoiced(a: Log, m: State, t: State)
    requires Tells(a, m) && Extends(m.log, t.log) && t.subs == m.subs
    ensures Tells(a, t)
  {
    GrowsTransitive(a, m.log, t.log);
    forall id, i | |DeliveredTo(a.delivered, id)| <= i < |DeliveredTo(t.log.delivered, id)| &&
                   !Aside(DeliveredTo(t.log.delivered, id)[i])
      ensures id in t.subs && t.subs[id].stream.Outcomes?
    {
      assert DeliveredTo(t.log.delivered, id)[i] == DeliveredTo(m.log.delivered, id)[i];
    }
  }

  lemma ExtendsItself(a: Log)
    ensures Extends(a, a)
  {
  }

  /** Failing once every request is settled. */
  lemma FailTail(s: State, a: State, code: Code, w: World)
    requires Data(a, w) && a == SettleAll(s, PermanentFailure, code) && a.pending == map[]
    requires !s.failed && !s.closed
    ensures Inv(Fail(s, code), w) && Extends(a.log, Fail(s, code).log)
  {
    hide Data, Extends, SettleAll, Retire;
    var b := a.(failed := true, resuming := false, reconnect := None, attempt := None);
    FailedKeepsData(a, w);
    var d := Trouble(Error(code, false, None));
    NotifyAllKeepsData(b, d, w);
    DropAllKeepsData(NotifyAll(b, d), w);
    RetireKeepsData(DropAll(NotifyAll(b, d)), w);
    FailedStands(b, d);
  }

  lemma FailedKeepsData(a: State, w: World)
    requires Data(a, w) && a.pending == map[]
    ensures Data(a.(failed := true, resuming := false, reconnect := None, attempt := None), w)
  {
    hide Books, Ledgered, Truthful, Chained, Converges, Timers, Flight, Carried, Endings, Admitted;
    EmptyFlight(a.log.wire, a.socket && a.ready, a.generation, None);
  }

  lemma FailedStands(b: State, d: Delivery)
    requires b.failed && b.pending == map[] && b.attempt.None? && b.reconnect.None? && !b.resuming
    ensures var t := Retire(DropAll(NotifyAll(b, d))); Linked(t) && Standing(t) && t.log == NotifyAll(b, d).log
  {
    hide Total, SubBytes;
  }

  /** Between connections: nothing is dialed, and no recovery waits behind an armed timer. */
  ghost predicate Adrift(s: State) {
    && !Halted(s)
    && !s.socket && !s.open && !s.ready
    && (s.resuming ==> s.reconnect.None?)
  }

  lemma ScheduleReconnectKeeps(s: State, w: World)
    requires Data(s, w) && Standing(s) && Adrift(s)
    ensures Inv(ScheduleReconnect(s), w) && Extends(s.log, ScheduleReconnect(s).log)
  {
    hide Books, Ledgered, Truthful, Chained, Converges, Timers, Flight, Carried, Endings, Admitted, Extends, Fail;
    ExtendsItself(s.log);
    if s.reconnect.None? && s.env.delay.None? {
      FailKeeps(s.(resuming := false), Internal, w);
    }
  }

  lemma SettleInFlightKeeps(s: State, w: World)
    requires Data(s, w)
    ensures Data(SettleInFlight(s), w) && Extends(s.log, SettleInFlight(s).log)
    ensures Grounded(s.log.wire, SettleInFlight(s).pending)
    ensures SettleInFlight(s).pending.Keys <= s.pending.Keys
  {
    hide Books, Ledgered, Truthful, Chained, Converges, Timers, Flight, Carried, Endings, Admitted, Extends,
         EndingAllowed;
    hide Settle, Grounded;
    var done := map id | id in s.pending && InFlight(s.pending[id], s.generation)
                  :: Rejected(ConnectionLost, Indeterminate);
    forall id | id in done
      ensures EndingAllowed(s, id, done[id], w)
    {
      RejectionAllowed(s, id, ConnectionLost, Indeterminate, w);
    }
    SettleKeepsData(s, done, w, w);
    SettleFrame(s, done);
    GroundedAfter(s, done.Keys);
  }

  lemma GroundedAfter(s: State, done: set<nat>)
    requires Flight(s.log.wire, s.socket && s.ready, s.generation, s.attempt, s.pending)
    requires forall id | id in s.pending && InFlight(s.pending[id], s.generation) :: id in done
    ensures Grounded(s.log.wire, s.pending - done)
  {
    forall id | id in s.pending - done && s.pending[id].kind.Procedure?
      ensures Transmissions(s.log.wire, id) == []
    {
      assert RequestFlight(s.log.wire, s.socket && s.ready, s.generation, s.attempt, id, s.pending[id]);
    }
  }

  lemma LoseConnectionKeeps(s: State, w: World)
    requires Inv(s, w) && s.socket
    ensures Inv(LoseConnection(s), w) && Extends(s.log, LoseConnection(s).log)
  {
    hide Books, Ledgered, Truthful, Chained, Converges, Timers, Flight, Carried, Endings, Admitted, Extends, Grounded;
    hide SettleInFlight, ScheduleReconnect;
    SettleInFlightKeeps(s, w);
    var s1 := SettleInFlight(s);
    SettleInFlightFrame(s);
    RetireKeepsData(s1, w);
    var s2 := Retire(s1).(resuming := false);
    ScheduleReconnectKeeps(s2, w);
    ExtendsTransitive(s.log, s1.log, ScheduleReconnect(s2).log);
  }

  /** Settling touches only requests, their reservations and the record of endings. */
  ghost predicate OnlySettled(s: State, t: State) {
    t == s.(pending := t.pending, items := t.items, bytes := t.bytes, log := s.log.(settled := t.log.settled))
  }

  lemma SettleFrame(s: State, done: map<nat, Settlement>)
    requires done.Keys <= s.pending.Keys
    ensures OnlySettled(s, Settle(s, done))
    ensures Settle(s, done).pending == s.pending - done.Keys
  {
  }

  lemma SettleInFlightFrame(s: State)
    ensures OnlySettled(s, SettleInFlight(s))
  {
    hide Settle, OnlySettled;
    SettleFrame(s, map id | id in s.pending && InFlight(s.pending[id], s.generation)
                     :: Rejected(ConnectionLost, Indeterminate));
  }

  lemma DialAdmitted(admissions: seq<Admission>, notBefore: nat, generation: nat, now: nat)
    requires Admitted(admissions, notBefore, generation, now) && notBefore <= now
    ensures Admitted(admissions + [Dialed(now)], notBefore, generation + 1, now)
  {
    assert (admissions + [Dialed(now)])[..|admissions|] == admissions;
  }

  lemma EnsureConnectedKeeps(s: State, w: World)
    requires Data(s, w) && Standing(s)
    requires if Halted(s) || s.socket then Linked(s) else Adrift(s)
    ensures Inv(EnsureConnected(s), w) && Extends(s.log, EnsureConnected(s).log)
  {
    hide Books, Ledgered, Truthful, Chained, Converges, Timers, Flight, Carried, Endings, Admitted, Extends, Grounded;
    hide ScheduleReconnect;
    ExtendsItself(s.log);
    if !Halted(s) && !s.socket {
      if s.notBefore > s.env.now {
        ScheduleReconnectKeeps(s, w);
      } else if !s.env.dial {
        ScheduleReconnectKeeps(s.(reconnect := None), w);
      } else {
        DeadIsGrounded(s);
        GroundedFlight(s.log.wire, s.socket && s.ready, s.generation, s.attempt, s.pending,
                       false, s.generation + 1, s.attempt);
        CarriedOn(s.log.wire, false, s.generation, s.subs, s.pending, s.log.wire, true, s.generation + 1);
        DialAdmitted(s.log.admissions, s.notBefore, s.generation, s.env.now);
        DialExtends(s.log, s.env.now);
      }
    }
  }

  lemma DialExtends(log: Log, now: nat)
    ensures Extends(log, log.(admissions := log.admissions + [Dialed(now)]))
  {
  }
}
