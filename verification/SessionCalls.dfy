/** Caller demand and lifecycle events keep the invariants. */
module SessionCalls {
  import opened Basics
  import opened Protocol
  import opened SessionSpec
  import opened SessionInvariants
  import opened SessionAtoms
  import opened SessionConnection
  import opened SessionSending
  import opened SessionFlushing
  import opened SessionTransitions
  import opened SessionEvents

  // --------------------------------------------------------------- connecting

  lemma ConnectKeeps(s: State, w: World)
    requires Inv(s, w)
    ensures Inv(EnsureConnected(s), w) && Extends(s.log, EnsureConnected(s).log)
  {
    hide Data, Extends, EnsureConnected;
    EnsureConnectedKeeps(s, w);
  }

  lemma FailSocket(s: State, code: Code)
    requires !s.socket
    ensures !Fail(s, code).socket
  {
    hide SettleAll, NotifyAll, DropAll;
  }

  lemma ScheduleSocket(s: State)
    requires !s.socket
    ensures !ScheduleReconnect(s).socket
  {
    hide Fail;
    FailSocket(s.(resuming := false), Internal);
  }

  /** A connection that can carry operations was there before. */
  lemma ConnectSends(s: State)
    requires !s.socket ==> !s.open
    ensures CanSend(EnsureConnected(s)) ==> EnsureConnected(s) == s
  {
    hide ScheduleReconnect;
    if !s.socket {
      ScheduleSocket(s);
      ScheduleSocket(s.(reconnect := None));
    }
  }

  lemma InvOpen(s: State, w: World)
    requires Inv(s, w)
    ensures !s.socket ==> !s.open
  {
    hide Data;
  }

  // ----------------------------------------------------------------- requests

  lemma AskBooks(config: Config, subs: map<nat, Subscription>, pending: map<nat, Request>,
                 others: map<nat, nat>, items: int, bytes: int, id: nat, r: Request, bytes': int)
    requires Books(config, subs, pending, others, items, bytes) && id !in pending
    requires config.measure(Call(id, r.kind)) == Some(r.bytes)
    requires items < config.maxItems && bytes' == bytes + r.bytes && bytes' <= config.maxBytes
    ensures Books(config, subs, pending[id := r], others, items + 1, bytes')
  {
    hide Total, SubBytes, SubSized;
    TotalAdd(RequestBytes(pending), id, r.bytes);
    assert RequestBytes(pending[id := r]) == RequestBytes(pending)[id := r.bytes];
    SizeAdd(pending, id, r);
  }

  lemma AskLedger(s: State, r: Request)
    requires Ledgered(s.nextId, s.subs, s.pending, s.log.settled, s.log.issued, s.log.delivered, s.log.held)
    requires r.pledge.None?
    ensures Ledgered(s.nextId + 1, s.subs, s.pending[s.nextId := r], s.log.settled, s.log.issued + {s.nextId},
                     s.log.delivered, s.log.held)
    ensures s.nextId !in s.pending && s.nextId !in s.log.issued
  {
  }

  lemma AskFlight(s: State, id: nat, r: Request)
    requires Timers(s.config, s.env.now, s.arms, s.pending)
    requires Flight(s.log.wire, s.socket && s.ready, s.generation, s.attempt, s.pending)
    requires Endings(s.log.wire, s.log.settled, s.log.issued)
    requires id !in s.log.issued && r.armed == s.arms
    requires r.kind.Procedure? ==> r.expiresAt <= s.env.now + s.config.maxQueryAge
    ensures Timers(s.config, s.env.now, s.arms + 1, s.pending[id := r])
    ensures Flight(s.log.wire, s.socket && s.ready, s.generation, s.attempt, s.pending[id := r])
    ensures Endings(s.log.wire, s.log.settled, s.log.issued + {id})
  {
    hide EndingHonest;
    forall j | j in s.pending
      ensures RequestTimer(s.config, s.env.now, s.arms + 1, s.pending[j])
    {
      assert RequestTimer(s.config, s.env.now, s.arms, s.pending[j]);
    }
  }

  lemma AskConverges(s: State, id: nat, r: Request, w: World)
    requires Converges(s.subs, s.pending, s.log.settled, s.log.held, w)
    requires r.pledge.None? && id !in w.promised
    ensures Converges(s.subs, s.pending[id := r], s.log.settled, s.log.held, w)
  {
    hide WaitsFor, ConvergedHolds;
    assert PledgeHolds(s.subs, s.log.held, w, id, r);
  }

  lemma AskedKeeps(s: State, r: Request, w: World)
    requires Inv(s, w) && Usable(s) && !(r.kind.Procedure? && s.suspended)
    requires s.config.measure(Call(s.nextId, r.kind)) == Some(r.bytes) && Admits(s, r.bytes)
    requires r.armed == s.arms && r.sent.None? && r.pledge.None? && s.nextId !in w.promised
    requires r.kind.Procedure? ==> r.expiresAt <= s.env.now + s.config.maxQueryAge
    ensures Inv(Asked(s, r), w) && Extends(s.log, Asked(s, r).log)
  {
    hide Books, Ledgered, Truthful, Chained, Converges, Timers, Flight, Carried, Endings, Admitted;
    AskLedger(s, r);
    AskBooks(s.config, s.subs, s.pending, s.others, s.items, s.bytes, s.nextId, r, Asked(s, r).bytes);
    AskFlight(s, s.nextId, r);
    AskConverges(s, s.nextId, r, w);
    AskCarried(s, s.nextId, r);
  }

  lemma AskCarried(s: State, id: nat, r: Request)
    requires Carried(s.log.wire, s.socket, s.generation, s.subs, s.pending) && r.sent.None?
    ensures Carried(s.log.wire, s.socket, s.generation, s.subs, s.pending[id := r])
  {
    hide SubCarried;
  }

  lemma WatchCarried(s: State, id: nat, sub: Subscription)
    requires Carried(s.log.wire, s.socket, s.generation, s.subs, s.pending) && sub.sent.None?
    ensures Carried(s.log.wire, s.socket, s.generation, s.subs[id := sub], s.pending)
  {
    hide RequestCarried;
  }

  lemma SkipIdKeeps(s: State, w: World)
    requires Inv(s, w)
    ensures Inv(s.(nextId := s.nextId + 1), w)
  {
    hide Books, Truthful, Chained, Converges, Timers, Flight, Carried, Endings, Admitted;
  }

  lemma ConnectThenSend(s: State, id: nat, w: World)
    requires Inv(s, w) && id in s.pending && s.pending[id].sent.None?
    ensures Inv(ConnectAndSend(s, id), w) && Extends(s.log, ConnectAndSend(s, id).log)
  {
    hide Inv, Extends, EnsureConnected, SendRequest;
    ConnectKeeps(s, w);
    InvOpen(s, w);
    ConnectSends(s);
    var t := EnsureConnected(s);
    if CanSend(t) && id in t.pending { SendRequestKeeps(t, id, w); }
  }

  lemma NextIdIsNew(s: State, w: World)
    requires Inv(s, w)
    ensures s.nextId !in s.log.issued && s.nextId !in s.subs
  {
    hide Books, Truthful, Chained, Converges, Timers, Flight, Carried, Endings, Admitted, Linked, Standing;
  }

  lemma OnAskKeeps(s: State, kind: Kind, requestId: string, w: World)
    requires Inv(s, w) && w.promised.Keys <= s.log.issued
    ensures Inv(OnAsk(s, kind, requestId), w) && Extends(s.log, OnAsk(s, kind, requestId).log)
  {
    hide Inv, Extends, ConnectAndSend, Asked;
    ExtendsItself(s.log);
    SkipIdKeeps(s, w);
    var f := Call(s.nextId, kind);
    if Usable(s) && !(kind.Procedure? && s.suspended) && Fits(s.config, f) && Admits(s, s.config.measure(f).value) {
      var r := Request(kind, s.config.measure(f).value, s.env.now + MaxAge(s.config, kind), s.arms,
                       requestId, None, None);
      NextIdIsNew(s, w);
      AskThenConnect(s, r, w);
    }
  }

  lemma AskThenConnect(s: State, r: Request, w: World)
    requires Inv(s, w) && Usable(s) && !(r.kind.Procedure? && s.suspended)
    requires s.config.measure(Call(s.nextId, r.kind)) == Some(r.bytes) && Admits(s, r.bytes)
    requires r.armed == s.arms && r.sent.None? && r.pledge.None? && s.nextId !in w.promised
    requires r.kind.Procedure? ==> r.expiresAt <= s.env.now + s.config.maxQueryAge
    ensures var t := ConnectAndSend(Asked(s, r), s.nextId); Inv(t, w) && Extends(s.log, t.log)
  {
    hide Inv, Extends, ConnectAndSend;
    AskedKeeps(s, r, w);
    var a := Asked(s, r);
    ConnectThenSend(a, s.nextId, w);
    ExtendsTransitive(s.log, a.log, ConnectAndSend(a, s.nextId).log);
  }

  // ------------------------------------------------------------ subscriptions

  lemma WatchBooks(config: Config, subs: map<nat, Subscription>, pending: map<nat, Request>,
                   others: map<nat, nat>, items: int, bytes: int, id: nat, sub: Subscription, bytes': int)
    requires Books(config, subs, pending, others, items, bytes) && id !in subs && SubSized(config, id, sub)
    requires items < config.maxItems && bytes' == bytes + sub.bytes && bytes' <= config.maxBytes
    ensures Books(config, subs[id := sub], pending, others, items + 1, bytes')
  {
    hide Total, RequestBytes, SubSized;
    TotalAdd(SubBytes(subs), id, sub.bytes);
    assert SubBytes(subs[id := sub]) == SubBytes(subs)[id := sub.bytes];
    SizeAdd(subs, id, sub);
  }

  lemma WatchStreams(s: State, sub: Subscription, truth: Truth)
    requires Ledgered(s.nextId, s.subs, s.pending, s.log.settled, s.log.issued, s.log.delivered, s.log.held)
    requires Truthful(s.subs, s.log.delivered, truth) && Chained(s.subs, s.log.held)
    requires sub.stream.Outcomes? ==> sub.stream.cursor.None?
    ensures s.nextId !in s.subs
    ensures Ledgered(s.nextId + 1, s.subs[s.nextId := sub], s.pending, s.log.settled, s.log.issued,
                     s.log.delivered, s.log.held)
    ensures Truthful(s.subs[s.nextId := sub], s.log.delivered, truth)
    ensures Chained(s.subs[s.nextId := sub], s.log.held)
  {
    hide Increasing, Anchored;
  }

  /** A fresh subscription is nobody's obligation. */
  lemma WatchConverges(s: State, sub: Subscription, w: World)
    requires Ledgered(s.nextId, s.subs, s.pending, s.log.settled, s.log.issued, s.log.delivered, s.log.held)
    requires Converges(s.subs, s.pending, s.log.settled, s.log.held, w)
    ensures Converges(s.subs[s.nextId := sub], s.pending, s.log.settled, s.log.held, w)
  {
    hide ReachedSince;
    var subs := s.subs[s.nextId := sub];
    forall r | r in s.pending
      ensures PledgeHolds(subs, s.log.held, w, r, s.pending[r])
    {
      assert PledgeHolds(s.subs, s.log.held, w, r, s.pending[r]);
    }
    forall r | r in s.log.settled
      ensures ConvergedHolds(subs, s.log.held, w.promised, r, s.log.settled[r])
    {
      assert ConvergedHolds(s.subs, s.log.held, w.promised, r, s.log.settled[r]);
    }
  }

  lemma WatchedKeeps(s: State, sub: Subscription, w: World)
    requires Inv(s, w) && Usable(s) && SubSized(s.config, s.nextId, sub) && Admits(s, sub.bytes) && sub.sent.None?
    requires sub.stream.Outcomes? ==> sub.stream.cursor.None?
    ensures Inv(Watched(s, sub), w)
  {
    hide Books, Ledgered, Truthful, Chained, Converges, Timers, Flight, Carried, Endings, Admitted, SubSized;
    WatchStreams(s, sub, w.truth);
    WatchBooks(s.config, s.subs, s.pending, s.others, s.items, s.bytes, s.nextId, sub, Watched(s, sub).bytes);
    WatchConverges(s, sub, w);
    WatchCarried(s, s.nextId, sub);
  }

  lemma ConnectThenSendSub(s: State, id: nat, w: World)
    requires Inv(s, w)
    ensures Inv(ConnectAndSubscribe(s, id), w) && Extends(s.log, ConnectAndSubscribe(s, id).log)
  {
    hide Inv, Extends, EnsureConnected, SendSub;
    ConnectKeeps(s, w);
    var t := EnsureConnected(s);
    if CanSend(t) && id in t.subs {
      SendSubKeeps(t, id, w);
      ExtendsTransitive(s.log, t.log, SendSub(t, id).log);
    }
  }

  lemma OnWatchKeeps(s: State, query: bool, w: World)
    requires Inv(s, w)
    ensures Inv(OnWatch(s, query), w) && Extends(s.log, OnWatch(s, query).log)
  {
    hide Inv, Extends, ConnectAndSubscribe, Watched;
    ExtendsItself(s.log);
    SkipIdKeeps(s, w);
    var f := SubscribeFrame(s.nextId, None);
    if Usable(s) && Fits(s.config, f) && Admits(s, s.config.measure(f).value) {
      var sub := Subscription(f, s.config.measure(f).value, None, false,
                              if query then Outcomes(None, false) else Events(None));
      WatchThenConnect(s, sub, w);
    }
  }

  lemma WatchThenConnect(s: State, sub: Subscription, w: World)
    requires Inv(s, w) && Usable(s) && SubSized(s.config, s.nextId, sub) && Admits(s, sub.bytes) && sub.sent.None?
    requires sub.stream.Outcomes? ==> sub.stream.cursor.None?
    ensures var t := ConnectAndSubscribe(Watched(s, sub), s.nextId); Inv(t, w) && Extends(s.log, t.log)
  {
    hide Inv, Extends, ConnectAndSubscribe;
    WatchedKeeps(s, sub, w);
    ConnectThenSendSub(Watched(s, sub), s.nextId, w);
  }

  // ----------------------------------------------------- credentials, budgets

  lemma NewAttemptFlight(s: State, attempt: Attempt)
    requires Timers(s.config, s.env.now, s.arms, s.pending)
    requires Flight(s.log.wire, s.socket && s.ready, s.generation, s.attempt, s.pending)
    requires attempt.expiresAt == s.env.now + s.config.maxQueryAge
    requires attempt.armed.Some? ==> attempt.armed.value == s.arms
    ensures Flight(s.log.wire, s.socket && s.ready, s.generation, Some(attempt), s.pending)
    ensures Timers(s.config, s.env.now, s.arms + 1, s.pending)
  {
    forall id | id in s.pending
      ensures RequestFlight(s.log.wire, s.socket && s.ready, s.generation, Some(attempt), id, s.pending[id])
      ensures RequestTimer(s.config, s.env.now, s.arms + 1, s.pending[id])
    {
      assert RequestFlight(s.log.wire, s.socket && s.ready, s.generation, s.attempt, id, s.pending[id]);
      assert RequestTimer(s.config, s.env.now, s.arms, s.pending[id]);
    }
  }

  lemma OnRefreshKeeps(s: State, credential: Credential, w: World)
    requires Inv(s, w)
    ensures Inv(OnRefresh(s, credential), w) && Extends(s.log, OnRefresh(s, credential).log)
  {
    hide Books, Ledgered, Truthful, Chained, Converges, Timers, Flight, Carried, Endings, Admitted, Extends;
    hide Send, EnsureConnected;
    ExtendsItself(s.log);
    SkipIdKeeps(s, w);
    var attempt := Attempt(s.nextId, credential, s.env.now + s.config.maxQueryAge,
                           if s.suspended then None else Some(s.arms));
    if !s.closed && !s.failed {
      NextIdIsNew(s, w);
      NewAttemptFlight(s, attempt);
      var s2 := s.(nextId := s.nextId + 1, credential := credential, blocked := false,
                   attempt := Some(attempt), arms := s.arms + 1);
      if s.ready {
        SendKeeps(s2, Auth(attempt.id, attempt.credential), w);
      } else {
        EnsureConnectedKeeps(s2, w);
      }
    }
  }

  lemma OthersBooks(s: State, key: nat, size: nat)
    requires Books(s.config, s.subs, s.pending, s.others, s.items, s.bytes)
    ensures var t := OnReserve(s, key, size); Books(t.config, t.subs, t.pending, t.others, t.items, t.bytes)
    ensures var t := OnRelease(s, key); Books(t.config, t.subs, t.pending, t.others, t.items, t.bytes)
  {
    hide Total, RequestBytes, SubBytes, SubSized;
    if key in s.others {
      TotalRemove(s.others, key);
      SizeSplit(s.others, {key});
    } else {
      TotalAdd(s.others, key, size);
      SizeAdd(s.others, key, size);
    }
  }

  lemma ReserveKeeps(s: State, key: nat, size: nat, w: World)
    requires Inv(s, w)
    ensures Inv(OnReserve(s, key, size), w) && OnReserve(s, key, size).log == s.log
  {
    hide Books, Ledgered, Truthful, Chained, Converges, Timers, Flight, Carried, Endings, Admitted;
    OthersBooks(s, key, size);
  }

  lemma ReleaseKeeps(s: State, key: nat, w: World)
    requires Inv(s, w)
    ensures Inv(OnRelease(s, key), w) && OnRelease(s, key).log == s.log
  {
    hide Books, Ledgered, Truthful, Chained, Converges, Timers, Flight, Carried, Endings, Admitted;
    OthersBooks(s, key, 0);
  }

  // ---------------------------------------------------------------- lifecycle

  lemma SettleProceduresKeeps(s: State, w: World)
    requires Inv(s, w)
    ensures Inv(SettleProcedures(s), w) && Extends(s.log, SettleProcedures(s).log)
  {
    hide Inv, Extends, EndingAllowed, Settle, Flight;
    var done := map id | id in s.pending && s.pending[id].kind.Procedure?
                  :: Rejected(Suspension, AbandonCode(s.pending[id]));
    InvFlight(s, w);
    forall id | id in done
      ensures EndingAllowed(s, id, done[id], w)
    {
      RejectionAllowed(s, id, Suspension, AbandonCode(s.pending[id]), w);
    }
    SettleKeeps(s, done, w, w);
  }

  lemma SettleProceduresFrame(s: State)
    ensures OnlySettled(s, SettleProcedures(s))
  {
    hide Settle, OnlySettled;
    SettleFrame(s, map id | id in s.pending && s.pending[id].kind.Procedure?
                     :: Rejected(Suspension, AbandonCode(s.pending[id])));
  }

  lemma SettleProceduresAll(s: State)
    ensures forall id | id in SettleProcedures(s).pending :: !SettleProcedures(s).pending[id].kind.Procedure?
  {
    hide Total, At, RequestBytes;
  }

  lemma NoProceduresGrounded(wire: seq<Transmission>, pending: map<nat, Request>)
    requires forall id | id in pending :: !pending[id].kind.Procedure?
    ensures Grounded(wire, pending)
  {
  }

  lemma GoDark(s: State, w: World)
    requires Inv(s, w) && !s.closed
    requires forall id | id in s.pending :: !s.pending[id].kind.Procedure?
    ensures Inv(Retire(s.(suspended := true, resuming := false, reconnect := None,
                          attempt := if s.attempt.Some? then Some(s.attempt.value.(armed := None)) else None)), w)
  {
    hide Books, Ledgered, Truthful, Chained, Converges, Timers, Flight, Carried, Endings, Admitted, Grounded;
    var s1 := s.(suspended := true, resuming := false, reconnect := None,
                 attempt := if s.attempt.Some? then Some(s.attempt.value.(armed := None)) else None);
    NoProceduresGrounded(s.log.wire, s.pending);
    GroundedFlight(s.log.wire, s.socket && s.ready, s.generation, s.attempt, s.pending,
                   s.socket && s.ready, s.generation, s1.attempt);
    RetireKeepsData(s1, w);
  }

  lemma OnSuspendKeeps(s: State, w: World)
    requires Inv(s, w)
    ensures Inv(OnSuspend(s), w) && Extends(s.log, OnSuspend(s).log)
  {
    hide Inv, Extends, SettleProcedures, Retire;
    ExtendsItself(s.log);
    if !s.closed && !s.suspended {
      CancelInFlightKeeps(s, 0, s.nextId, w);
      var s1 := CancelInFlight(s, 0, s.nextId);
      SettleProceduresKeeps(s1, w);
      SettleProceduresFrame(s1);
      SettleProceduresAll(s1);
      var s2 := SettleProcedures(s1);
      GoDark(s2, w);
      RetireLog(s2.(suspended := true, resuming := false, reconnect := None,
                    attempt := if s2.attempt.Some? then Some(s2.attempt.value.(armed := None)) else None));
      ExtendsTransitive(s.log, s1.log, s2.log);
    }
  }

  lemma RetireLog(s: State)
    ensures Retire(s).log == s.log
  {
  }

  lemma WakeKeeps(s: State, w: World)
    requires Inv(s, w) && s.suspended && !s.closed
    ensures var s1 := s.(suspended := false);
            var s2 := if s1.attempt.None? then s1
                      else if s1.attempt.value.expiresAt <= s1.env.now then ExpireAttempt(s1)
                      else s1.(attempt := Some(s1.attempt.value.(armed := Some(s1.arms))), arms := s1.arms + 1);
            && Data(s2, w) && Standing(s2) && !s2.socket && !s2.open && !s2.ready && s2.reconnect.None?
            && !s2.suspended && !s2.closed && s2.log == s.log && !s2.resuming
            && (s2.failed || s2.blocked ==> Linked(s2))
  {
    hide Books, Ledgered, Truthful, Chained, Converges, Timers, Flight, Carried, Endings, Admitted, Grounded;
    var s1 := s.(suspended := false);
    NoProceduresGrounded(s.log.wire, s.pending);
    MoreArms(s.config, s.env.now, s.arms, s.pending);
    var rearmed := if s.attempt.Some? then Some(s.attempt.value.(armed := Some(s.arms))) else None;
    GroundedFlight(s.log.wire, s.socket && s.ready, s.generation, s.attempt, s.pending,
                   s.socket && s.ready, s.generation, rearmed);
    GroundedFlight(s.log.wire, s.socket && s.ready, s.generation, s.attempt, s.pending,
                   s.socket && s.ready, s.generation, None);
    RetireKeepsData(s1.(attempt := None, blocked := true, resuming := false), w);
  }

  lemma MoreArms(config: Config, now: nat, arms: nat, pending: map<nat, Request>)
    requires Timers(config, now, arms, pending)
    ensures Timers(config, now, arms + 1, pending)
  {
    forall id | id in pending
      ensures RequestTimer(config, now, arms + 1, pending[id])
    {
      assert RequestTimer(config, now, arms, pending[id]);
    }
  }

  lemma OnResumeKeeps(s: State, w: World)
    requires Inv(s, w)
    ensures Inv(OnResume(s), w) && Extends(s.log, OnResume(s).log)
  {
    hide Books, Ledgered, Truthful, Chained, Converges, Timers, Flight, Carried, Endings, Admitted, Extends;
    hide EnsureConnected, ExpireAttempt;
    ExtendsItself(s.log);
    if !s.closed && s.suspended {
      WakeKeeps(s, w);
      var s2 := Rearm(s.(suspended := false));
      if !s2.failed && !s2.blocked { EnsureConnectedKeeps(s2.(resuming := true), w); }
    }
  }

  lemma CloseSettles(s: State, w: World)
    requires Inv(s, w)
    ensures var t := SettleClosed(s);
            Data(t, w) && Extends(s.log, t.log) && t.pending == map[] && OnlySettled(s, t)
  {
    hide Books, Ledgered, Truthful, Chained, Converges, Timers, Flight, Carried, Endings, Admitted, Linked, Standing;
    hide Extends, EndingAllowed, Settle, OnlySettled;
    var done := map id | id in s.pending :: Rejected(ClientClosed, AbandonCode(s.pending[id]));
    forall id | id in done
      ensures EndingAllowed(s, id, done[id], w)
    {
      RejectionAllowed(s, id, ClientClosed, AbandonCode(s.pending[id]), w);
    }
    SettleKeepsData(s, done, w, w);
    SettleEverything(s, done);
    SettleFrame(s, done);
  }

  lemma OnCloseKeeps(s: State, w: World)
    requires Inv(s, w)
    ensures Inv(OnClose(s), w) && Extends(s.log, OnClose(s).log)
  {
    hide Books, Ledgered, Truthful, Chained, Converges, Timers, Flight, Carried, Endings, Admitted, Extends,
         SettleClosed;
    ExtendsItself(s.log);
    if !s.closed {
      CloseSettles(s, w);
      var s1 := SettleClosed(s);
      DropAllKeepsData(s1, w);
      EmptyFlight(s1.log.wire, false, s1.generation, None);
      CarriedFewer(s1.log.wire, s1.socket, s1.generation, s1.subs, s1.pending, map[], map[]);
      CarriedOn(s1.log.wire, s1.socket, s1.generation, map[], map[], s1.log.wire, false, s1.generation);
    }
  }
}
