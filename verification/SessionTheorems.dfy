/** The session's promises, for every run. */
module SessionTheorems {
  import opened Basics
  import opened Protocol
  import opened SessionSpec
  import opened SessionInvariants
  import opened SessionConnection
  import opened SessionEvents
  import opened SessionTransitions
  import opened SessionRuns

  lemma RunInvariant(b: Beginning, ms: seq<Moment>)
    requires Possible(b, ms)
    ensures Inv(Run(b, ms), World(ArbitraryServer, {}, Promises(b, ms), None, Now(b, ms)))
  {
    hide Inv, Possible, Run;
    RunHolds(b, ms, ArbitraryServer);
  }

  /**
   * Against an honest server the last outcome a live query subscription delivered
   * is the server's at the cursor it holds; before its first cursor it has
   * delivered none.
   */
  lemma DeliveredOutcomeIsServers(b: Beginning, ms: seq<Moment>, outcome: (nat, Cursor) -> Outcome, id: nat)
    requires Possible(b, ms) && HonestRun(HonestServer(outcome), ms)
    requires id in Run(b, ms).subs && Run(b, ms).subs[id].stream.Outcomes?
    ensures var s := Run(b, ms);
            LastOutcome(Delivered(s.log, id)) ==
              match s.subs[id].stream.cursor
              case None => None
              case Some(c) => Some(outcome(id, c))
  {
    hide Possible, Run, Books, Ledgered, Chained, Converges, Timers, Flight, Carried, Endings, Admitted, Linked,
         Standing;
    RunHolds(b, ms, HonestServer(outcome));
  }

  /**
   * A subscription's confirmations, application errors and denials come only after an
   * outcome, its denials only for a reason of access.
   */
  lemma CallbacksAreAnchored(b: Beginning, ms: seq<Moment>, id: nat)
    requires Possible(b, ms)
    ensures Anchored(Delivered(Run(b, ms).log, id))
  {
    hide Possible, Run, Books, Ledgered, Chained, Converges, Timers, Flight, Carried, Endings, Admitted, Linked,
         Standing;
    RunInvariant(b, ms);
  }

  lemma {:induction false} LastOutcomeAt(ds: seq<Delivery>) returns (k: nat)
    requires LastOutcome(ds).Some?
    ensures k < |ds| && (ds[k].Fresh? || ds[k].Refused? || ds[k].Denied?)
  {
    var n := |ds| - 1;
    if ds[n].Fresh? || ds[n].Refused? || ds[n].Denied? { k := n; } else { k := LastOutcomeAt(ds[..n]); }
  }

  lemma {:induction false} ValueComesFirst(ds: seq<Delivery>, i: nat) returns (j: nat)
    requires Anchored(ds) && i < |ds| && (ds[i].Confirmed? || ds[i].Refused? || ds[i].Denied?)
    ensures j < i && ds[j].Fresh?
  {
    hide LastOutcome;
    assert MayFollow(ds[..i], ds[i]);
    var k := LastOutcomeAt(ds[..i]);
    assert ds[..i][k] == ds[k];
    if ds[k].Fresh? { j := k; } else { j := ValueComesFirst(ds, k); }
  }

  /**
   * A query subscription reports an application error, a revocation or a confirmation
   * only after it has reported a value: a query that fails from the start never
   * shows its error.
   */
  lemma ErrorsFollowValues(b: Beginning, ms: seq<Moment>, id: nat, i: nat) returns (j: nat)
    requires Possible(b, ms)
    requires var ds := Delivered(Run(b, ms).log, id);
             i < |ds| && (ds[i].Refused? || ds[i].Denied? || ds[i].Confirmed?)
    ensures j < i && Delivered(Run(b, ms).log, id)[j].Fresh?
  {
    hide Possible, Run, Anchored;
    CallbacksAreAnchored(b, ms, id);
    j := ValueComesFirst(Delivered(Run(b, ms).log, id), i);
  }

  /** In every run, a transition that bears an outcome reports it if and only if it is taken. */
  lemma OutcomeReportedExactlyWhen(b: Beginning, ms: seq<Moment>, m: Moment, id: nat, t: Transition)
    requires Possible(b, ms) && id in Run(b, ms).subs && Run(b, ms).subs[id].stream.Outcomes? && BearsOutcome(t)
    requires m.event.Incoming? && m.event.frame == Deliver(id, t)
    requires Enabled(Run(b, ms), m.env, m.event) && Listens(Run(b, ms), m.event.generation, m.event.frame)
    ensures var before, after := Delivered(Run(b, ms).log, id), Delivered(Run(b, ms + [m]).log, id);
            && (after == before + [Callback(t)] <==> Taken(Run(b, ms), id, t))
            && (!Taken(Run(b, ms), id, t) ==>
                  before <= after && forall i | |before| <= i < |after| :: Aside(after[i]) || after[i].Confirmed?)
  {
    hide Inv, ApplyTransition, Possible, Taken, Run, AcceptedTransition, Callback;
    RunInvariant(b, ms);
    var s := Run(b, ms);
    var w := World(ArbitraryServer, {}, Promises(b, ms), None, Now(b, ms));
    ClockKeeps(s, m.env, w);
    ReportedExactlyWhen(s.(env := m.env), id, t, w.(now := m.env.now));
    SameTaken(s, m.env, id, t);
    LastStep(b, ms, m);
  }

  lemma SameTaken(s: State, env: Env, id: nat, t: Transition)
    requires id in s.subs && s.subs[id].stream.Outcomes?
    ensures Taken(s.(env := env), id, t) <==> Taken(s, id, t)
  {
    hide PredecessorMatches, Fits;
  }

  lemma LastStep(b: Beginning, ms: seq<Moment>, m: Moment)
    ensures Run(b, ms + [m]) == Step(Run(b, ms), m.env, m.event)
  {
    hide Step, Start;
    assert (ms + [m])[..|ms|] == ms;
  }

  /**
   * So an application error is reported if and only if it names the cursor held as
   * its predecessor, no reset is asked for, and its own cursor is new and can be held.
   */
  lemma ApplicationErrorReportedExactlyWhen(b: Beginning, ms: seq<Moment>, m: Moment, id: nat,
                                            from: Option<Cursor>, to: Cursor, error: Payload)
    requires Possible(b, ms) && id in Run(b, ms).subs && Run(b, ms).subs[id].stream.Outcomes?
    requires m.event.Incoming? && m.event.frame == Deliver(id, ApplicationError(from, to, error))
    requires Enabled(Run(b, ms), m.env, m.event) && Listens(Run(b, ms), m.event.generation, m.event.frame)
    ensures var before, after := Delivered(Run(b, ms).log, id), Delivered(Run(b, ms + [m]).log, id);
            var held := Run(b, ms).subs[id].stream;
            after == before + [Refused(error)] <==>
              && from.Some? && held.cursor == from && held.cursor != Some(to)
              && !held.resetRequested && Retainable(Run(b, ms), id, to)
  {
    hide Possible, Run, Listens, Enabled, Retainable;
    OutcomeReportedExactlyWhen(b, ms, m, id, ApplicationError(from, to, error));
  }

  /** Between resets and revocations the cursors a subscription takes strictly advance on one stream. */
  lemma CursorsAdvance(b: Beginning, ms: seq<Moment>, id: nat, i: nat)
    requires Possible(b, ms)
    requires var hs := HeldBy(Run(b, ms).log, id); i < |hs| && !hs[i].restarted
    ensures var hs := HeldBy(Run(b, ms).log, id); 0 < i && Advances(hs[i - 1].cursor, hs[i].cursor)
  {
    hide Possible, Run, Books, Ledgered, Truthful, Converges, Timers, Flight, Carried, Endings, Admitted, Linked,
         Standing;
    RunInvariant(b, ms);
    assert Increasing(HeldBy(Run(b, ms).log, id));
  }

  /** This event is the receipt of a mutation that is waiting for its outcome. */
  ghost predicate BringsReceipt(s: State, e: Event, id: nat) {
    && e.Incoming? && Listens(s, e.generation, e.frame)
    && e.frame.Result? && e.frame.id == id && IsReceipt(s, id, e.frame.kind, e.frame.receipt)
  }

  /** The last receipt for a mutation came at moment `i`. */
  ghost predicate LastReceipt(b: Beginning, ms: seq<Moment>, i: nat, id: nat) {
    && i < |ms| && BringsReceipt(Run(b, ms[..i]), ms[i].event, id)
    && (forall j | i < j < |ms| :: !BringsReceipt(Run(b, ms[..j]), ms[j].event, id))
  }

  /** What is remembered of a mutation is what its last receipt said when it came. */
  lemma {:induction false} RememberedReceipt(b: Beginning, ms: seq<Moment>, id: nat) returns (i: nat)
    requires id in Promises(b, ms)
    ensures LastReceipt(b, ms, i, id)
    ensures Promises(b, ms)[id] ==
              PromiseOf(Run(b, ms[..i]), ms[i].event.frame.receipt.value, ms[i].event.frame.answer)
  {
    hide Run, PromiseOf, IsReceipt, Listens;
    var n := |ms| - 1;
    var before := ms[..n];
    if BringsReceipt(Run(b, before), ms[n].event, id) {
      i := n;
    } else {
      assert Promises(b, before)[id] == Promises(b, ms)[id];
      i := RememberedReceipt(b, before, id);
      assert ms[..i] == before[..i];
      forall j | i < j < |ms|
        ensures !BringsReceipt(Run(b, ms[..j]), ms[j].event, id)
      {
        if j < n { assert ms[..j] == before[..j]; }
      }
    }
  }

  /** A receipt that has come is remembered. */
  lemma {:induction false} ReceiptIsRemembered(b: Beginning, ms: seq<Moment>, i: nat, id: nat)
    requires i < |ms| && BringsReceipt(Run(b, ms[..i]), ms[i].event, id)
    ensures id in Promises(b, ms)
  {
    hide Run, PromiseOf, IsReceipt, Listens;
    var n := |ms| - 1;
    if i < n {
      assert ms[..n][..i] == ms[..i];
      ReceiptIsRemembered(b, ms[..n], i, id);
    }
  }

  /** The query subscriptions a receipt names that are live when it comes. */
  ghost function Obliged(b: Beginning, ms: seq<Moment>, i: nat): set<nat>
    requires i < |ms| && ms[i].event.Incoming? && ms[i].event.frame.Result? && ms[i].event.frame.receipt.Some?
  {
    Named(ms[i].event.frame.receipt.value) * Run(b, ms[..i]).subs.Keys
  }

  /** Since moment `i` a subscription is gone, or has held a cursor at or past the version. */
  ghost predicate CaughtUp(b: Beginning, ms: seq<Moment>, i: nat, k: nat, version: nat)
    requires i <= |ms|
  {
    var now := HeldBy(Run(b, ms).log, k);
    || k !in Run(b, ms).subs
    || exists n :: 0 <= n < |now| && |HeldBy(Run(b, ms[..i]).log, k)| <= n + 1 && now[n].cursor.commitVersion >= version
  }

  /** The subscriptions a receipt named that have yet to catch up with it. */
  ghost function Lagging(b: Beginning, ms: seq<Moment>, i: nat): set<nat>
    requires i < |ms| && ms[i].event.Incoming? && ms[i].event.frame.Result? && ms[i].event.frame.receipt.Some?
  {
    set k | k in Obliged(b, ms, i) && !CaughtUp(b, ms, i, k, ms[i].event.frame.receipt.value.commitVersion)
  }

  lemma CaughtUpIsPast(b: Beginning, ms: seq<Moment>, i: nat, k: nat, p: Promise)
    requires i <= |ms| && MarkOf(p, k) == |HeldBy(Run(b, ms[..i]).log, k)|
    ensures CaughtUp(b, ms, i, k, p.version) <==> Past(Run(b, ms).subs, Run(b, ms).log.held, k, p)
  {
    hide Run, CursorsOf, MarkOf;
    var now, mark := HeldBy(Run(b, ms).log, k), MarkOf(p, k);
    if n :| 0 <= n < |now| && mark <= n + 1 && now[n].cursor.commitVersion >= p.version {
      assert ReachedSince(now, mark, p.version);
    }
  }

  /**
   * A mutation that resolves does so from its last receipt, with that receipt's
   * answer and version, and only once every registered subscription the receipt
   * named is gone or has held a cursor at or past it since.
   */
  lemma ReadYourWrites(b: Beginning, ms: seq<Moment>, id: nat) returns (i: nat)
    requires Possible(b, ms) && id in Run(b, ms).log.settled
    requires var d := Run(b, ms).log.settled[id]; d.kind.Mutation? && !d.settlement.Rejected?
    ensures LastReceipt(b, ms, i, id)
    ensures var f := ms[i].event.frame;
            var version := f.receipt.value.commitVersion;
            && Run(b, ms).log.settled[id].settlement == Converged(f.answer, version, Obliged(b, ms, i))
            && forall k | k in Obliged(b, ms, i) :: CaughtUp(b, ms, i, k, version)
  {
    hide Possible, Run, Books, Ledgered, Truthful, Chained, Timers, Flight, Carried, Endings, Admitted, Linked,
         Standing, Past;
    hide Promises, CaughtUp, BringsReceipt, HeldBy;
    RunInvariant(b, ms);
    var s := Run(b, ms);
    assert ConvergedHolds(s.subs, s.log.held, Promises(b, ms), id, s.log.settled[id]);
    i := RememberedReceipt(b, ms, id);
    LastReceiptIsResult(b, ms, i, id);
    forall k | k in Obliged(b, ms, i)
      ensures CaughtUp(b, ms, i, k, ms[i].event.frame.receipt.value.commitVersion)
    {
      CaughtUpIsPast(b, ms, i, k, Promises(b, ms)[id]);
    }
  }

  /** A mutation never resolves but from a receipt. */
  lemma MutationsAreNotAnswered(b: Beginning, ms: seq<Moment>)
    requires Possible(b, ms)
    ensures var settled := Run(b, ms).log.settled;
            forall id | id in settled && settled[id].kind.Mutation? :: !settled[id].settlement.Answered?
  {
    hide Possible, Run, Books, Ledgered, Truthful, Chained, Timers, Flight, Carried, Endings, Admitted, Linked,
         Standing, Past;
    hide Promises;
    RunInvariant(b, ms);
    var s := Run(b, ms);
    forall id | id in s.log.settled && s.log.settled[id].kind.Mutation?
      ensures !s.log.settled[id].settlement.Answered?
    {
      assert ConvergedHolds(s.subs, s.log.held, Promises(b, ms), id, s.log.settled[id]);
    }
  }

  lemma LastReceiptIsResult(b: Beginning, ms: seq<Moment>, i: nat, id: nat)
    requires LastReceipt(b, ms, i, id)
    ensures ms[i].event.Incoming? && ms[i].event.frame.Result? && ms[i].event.frame.receipt.Some?
  {
    hide Run, Listens;
  }

  /**
   * Once its receipt has come a mutation stays pending only as long as some
   * registered subscription the receipt named is live and has not caught up, and
   * it waits for exactly those: no wake-up is lost.
   */
  lemma NoWakeUpLost(b: Beginning, ms: seq<Moment>, i: nat, id: nat)
    requires Possible(b, ms) && LastReceipt(b, ms, i, id) && id in Run(b, ms).pending
    ensures ms[i].event.Incoming? && ms[i].event.frame.Result? && ms[i].event.frame.receipt.Some?
    ensures var s := Run(b, ms);
            var version := ms[i].event.frame.receipt.value.commitVersion;
            var late := Lagging(b, ms, i);
            && s.pending[id].pledge ==
                 Some(Pledge(version, ms[i].event.frame.answer, Obliged(b, ms, i), late))
            && late != {}
            && forall k | k in late :: k in s.subs && Behind(s.subs[k], version)
  {
    hide Possible, Run, Books, Ledgered, Truthful, Chained, Timers, Flight, Carried, Endings, Admitted, Linked,
         Standing;
    hide Promises, CaughtUp, BringsReceipt, HeldBy, Past, Waiting;
    LastReceiptIsResult(b, ms, i, id);
    RunInvariant(b, ms);
    var s := Run(b, ms);
    var w := World(ArbitraryServer, {}, Promises(b, ms), None, Now(b, ms));
    assert PledgeHolds(s.subs, s.log.held, w, id, s.pending[id]);
    OnlyLastReceipt(b, ms, i, id);
    var p := Promises(b, ms)[id];
    var q := s.pending[id].pledge.value;
    forall k | k in Obliged(b, ms, i)
      ensures k in q.obligations <==> !CaughtUp(b, ms, i, k, p.version)
      ensures k in q.obligations ==> k in s.subs && Behind(s.subs[k], p.version)
    {
      CaughtUpIsPast(b, ms, i, k, p);
      if k in q.obligations { WaitingIsNotPast(s.subs, s.log.held, k, p); }
    }
    assert q.obligations == Lagging(b, ms, i);
  }

  lemma OnlyLastReceipt(b: Beginning, ms: seq<Moment>, i: nat, id: nat)
    requires LastReceipt(b, ms, i, id)
    ensures id in Promises(b, ms)
    ensures ms[i].event.Incoming? && ms[i].event.frame.Result? && ms[i].event.frame.receipt.Some?
    ensures Promises(b, ms)[id] ==
              PromiseOf(Run(b, ms[..i]), ms[i].event.frame.receipt.value, ms[i].event.frame.answer)
  {
    hide Run, Promises, PromiseOf, Listens;
    LastReceiptIsResult(b, ms, i, id);
    ReceiptIsRemembered(b, ms, i, id);
    var j := RememberedReceipt(b, ms, id);
  }

  /** Every issued request is either waiting or settled. */
  lemma EveryRequestAccounted(b: Beginning, ms: seq<Moment>)
    requires Possible(b, ms)
    ensures var s := Run(b, ms);
            s.log.issued == s.pending.Keys + s.log.settled.Keys && s.pending.Keys !! s.log.settled.Keys
  {
    hide Possible, Run, Books, Truthful, Chained, Converges, Timers, Flight, Carried, Endings, Admitted, Linked,
         Standing;
    RunInvariant(b, ms);
  }

  lemma {:induction false} PossiblePrefix(b: Beginning, ms: seq<Moment>, more: seq<Moment>)
    requires Possible(b, ms + more)
    ensures Possible(b, ms)
    decreases |more|
  {
    hide Run, Enabled;
    if more == [] {
      assert ms + more == ms;
    } else {
      var shorter := more[..|more| - 1];
      assert (ms + more)[..|ms + more| - 1] == ms + shorter;
      PossiblePrefix(b, ms, shorter);
    }
  }

  lemma RecordGrows(b: Beginning, ms: seq<Moment>, more: seq<Moment>)
    requires Possible(b, ms + more)
    ensures Grows(Run(b, ms).log, Run(b, ms + more).log)
  {
    hide Inv, Grows, Run, Possible, Promises;
    PossiblePrefix(b, ms, more);
    RunHolds(b, ms, ArbitraryServer);
    RunKeeps(b, ms, more, ArbitraryServer, None);
  }

  /**
   * Every answer a query or procedure got, and every error that ended a request, was
   * brought by a frame of the then current connection for that request.
   */
  lemma {:induction false} AnswersAreBrought(b: Beginning, ms: seq<Moment>, id: nat) returns (i: nat)
    requires Possible(b, ms) && id in Run(b, ms).log.settled
    requires FromServer(Run(b, ms).log.settled[id].settlement)
    ensures i < |ms| && ms[i].event.Incoming?
    ensures var s, e, d := Run(b, ms[..i]), ms[i].event, Run(b, ms).log.settled[id];
            && Listens(s, e.generation, e.frame) && id in s.pending && s.pending[id].kind == d.kind
            && (d.settlement.Answered? ==>
                  && e.frame.Result? && e.frame.id == id && e.frame.kind == d.kind
                  && e.frame.answer == d.settlement.answer)
            && (d.settlement.Rejected? ==>
                  e.frame.Failure? && e.frame.target == Some(id) && e.frame.error.code == d.settlement.code)
  {
    hide Run, Inv, Grows, Voiced, Listens, Enabled, FromServer;
    if ms == [] {
      NothingSettledAtFirst(b, id);
    } else {
      var n := |ms| - 1;
      var before := ms[..n];
      assert before + [ms[n]] == ms;
      RunHolds(b, before, ArbitraryServer);
      OneMore(b, before, ms[n], ArbitraryServer, None);
      if id in Run(b, before).log.settled {
        SettledOnce(b, before, [ms[n]], id);
        i := AnswersAreBrought(b, before, id);
        assert ms[..i] == before[..i];
      } else {
        i := n;
      }
    }
  }

  lemma NothingSettledAtFirst(b: Beginning, id: nat)
    ensures id !in Run(b, []).log.settled
  {
    hide NotifyAll, DropAll, Retire;
  }

  /** A settled request stays settled the same way, whatever happens later. */
  lemma SettledOnce(b: Beginning, ms: seq<Moment>, more: seq<Moment>, id: nat)
    requires Possible(b, ms + more)
    requires id in Run(b, ms).log.settled
    ensures id in Run(b, ms + more).log.settled
    ensures Run(b, ms + more).log.settled[id] == Run(b, ms).log.settled[id]
  {
    hide Possible, Run;
    RecordGrows(b, ms, more);
  }

  /**
   * A mutation or procedure whose frame was transmitted is never ended by a
   * deadline, close, suspension, cancellation or connection loss with a code that
   * claims it did not run.
   */
  lemma TransmittedWorkIsNotCalledUnrun(b: Beginning, ms: seq<Moment>, id: nat)
    requires Possible(b, ms)
    requires var s := Run(b, ms);
      && Transmissions(s.log.wire, id) != [] && id in s.log.settled && !s.log.settled[id].kind.Query?
      && s.log.settled[id].settlement.Rejected? && LocalCause(s.log.settled[id].settlement.cause)
    ensures Run(b, ms).log.settled[id].settlement.code in {Indeterminate, ConvergenceUnavailable}
  {
    hide Possible, Run, Books, Ledgered, Truthful, Chained, Converges, Timers, Flight, Admitted, Linked, Standing;
    RunInvariant(b, ms);
    assert EndingHonest(Run(b, ms).log.wire, id, Run(b, ms).log.settled[id]);
  }

  /** A procedure's frame is transmitted at most once, so on at most one connection. */
  lemma ProcedureTransmittedOnce(b: Beginning, ms: seq<Moment>, id: nat)
    requires Possible(b, ms)
    requires var s := Run(b, ms);
      || (id in s.pending && s.pending[id].kind.Procedure?)
      || (id in s.log.settled && s.log.settled[id].kind.Procedure?)
    ensures |Transmissions(Run(b, ms).log.wire, id)| <= 1
  {
    hide Possible, Run, Books, Ledgered, Truthful, Chained, Converges, Timers, Admitted, Linked, Standing;
    RunInvariant(b, ms);
    var s := Run(b, ms);
    if id in s.pending {
      assert RequestFlight(s.log.wire, s.socket && s.ready, s.generation, s.attempt, id, s.pending[id]);
    } else {
      assert EndingHonest(s.log.wire, id, s.log.settled[id]);
    }
  }

  /**
   * Closed, failed, blocked or suspended means no socket and not ready; otherwise
   * there is exactly one of a socket and an armed reconnect timer.
   */
  lemma ConnectionDiscipline(b: Beginning, ms: seq<Moment>)
    requires Possible(b, ms)
    ensures var s := Run(b, ms);
            && (Halted(s) ==> !s.socket && !s.ready)
            && (!Halted(s) ==> s.socket != s.reconnect.Some?)
  {
    hide Possible, Run, Data, Standing;
    RunInvariant(b, ms);
  }

  /** Published phases tell the truth about the transport. */
  lemma PhasesAreTrue(b: Beginning, ms: seq<Moment>)
    requires Possible(b, ms)
    ensures var s := Run(b, ms);
            && (PhaseOf(s).Ready? ==> s.socket && s.ready)
            && (PhaseOf(s).Resuming? ==> s.socket && !s.ready)
            && (PhaseOf(s).Connecting? || PhaseOf(s).Reconnecting? ==> s.socket != s.reconnect.Some?)
            && (Halted(s) <==> PhaseOf(s) in {ClosedPhase, TerminalError, AuthenticationBlockedPhase, Phase.Suspended})
  {
    hide Possible, Run, Data, Standing;
    RunInvariant(b, ms);
  }

  /** This event is the current connection's request to stay away for a while. */
  predicate AsksToWait(s: State, e: Event) {
    && e.Incoming? && Listens(s, e.generation, e.frame)
    && e.frame.Failure? && e.frame.target.None? && e.frame.error.retryable
  }

  lemma AnnouncementIsRecorded(s: State, env: Env, e: Event)
    requires AsksToWait(s, e)
    ensures Step(s, env, e).log.admissions == s.log.admissions + [NotBefore(RetryDeadline(env.now, e.frame.error))]
  {
  }

  lemma {:induction false} DialIsRecorded(before: seq<Admission>, after: seq<Admission>) returns (j: nat)
    requires before <= after && Dials(before) < Dials(after)
    ensures |before| <= j < |after| && after[j].Dialed?
  {
    var n := |after| - 1;
    assert before != after;
    if after[n].Dialed? {
      j := n;
    } else {
      j := DialIsRecorded(before, after[..n]);
    }
  }

  lemma PrefixGrows(b: Beginning, ms: seq<Moment>, n: nat, m: nat)
    requires Possible(b, ms) && n <= m <= |ms|
    ensures Possible(b, ms[..m]) && Grows(Run(b, ms[..n]).log, Run(b, ms[..m]).log)
  {
    hide Run, Possible, Grows;
    assert ms[..m] + ms[m..] == ms;
    PossiblePrefix(b, ms[..m], ms[m..]);
    assert ms[..m] == ms[..n] + ms[n..m];
    RecordGrows(b, ms[..n], ms[n..m]);
  }

  /**
   * Once a server has asked for a delay, no connection is dialed until the delay
   * it asked for, capped at thirty seconds, is over.
   */
  lemma DialsHonourRetryAfter(b: Beginning, ms: seq<Moment>, i: nat, k: nat)
    requires Possible(b, ms) && i < k < |ms|
    requires AsksToWait(Run(b, ms[..i]), ms[i].event)
    requires Run(b, ms[..k]).generation < Run(b, ms[..k + 1]).generation
    ensures var asked := ms[i].event.frame.error.retryAfterMs;
            ms[i].env.now + (match asked case None => 0 case Some(t) => if t < 30000 then t else 30000) <= ms[k].env.now
  {
    hide Possible, Run, Books, Ledgered, Truthful, Chained, Converges, Timers, Flight, Carried, Endings, Linked,
         Standing;
    hide AsksToWait, Dials, Promises;
    var before, after := Run(b, ms[..k]), Run(b, ms[..k + 1]);
    var announced := Run(b, ms[..i + 1]);
    AnnouncedAt(b, ms, i);
    PrefixGrows(b, ms, i + 1, k);
    PrefixGrows(b, ms, k, k + 1);
    RunInvariant(b, ms[..k]);
    RunInvariant(b, ms[..k + 1]);
    var j := DialIsRecorded(before.log.admissions, after.log.admissions);
    var n := |announced.log.admissions| - 1;
    assert announced.log.admissions[n] == after.log.admissions[n];
  }

  lemma AnnouncedAt(b: Beginning, ms: seq<Moment>, i: nat)
    requires i < |ms| && AsksToWait(Run(b, ms[..i]), ms[i].event)
    ensures ms[i].event.Incoming? && ms[i].event.frame.Failure?
    ensures var a := Run(b, ms[..i + 1]).log.admissions;
            a != [] && a[|a| - 1] == NotBefore(RetryDeadline(ms[i].env.now, ms[i].event.frame.error))
  {
    hide Step, Listens;
    assert ms[..i + 1][..i] == ms[..i];
    AnnouncementIsRecorded(Run(b, ms[..i]), ms[i].env, ms[i].event);
  }

  /** The reservation counters equal what is outstanding and stay within the limits. */
  lemma ReservationsConserved(b: Beginning, ms: seq<Moment>)
    requires Possible(b, ms)
    ensures var s := Run(b, ms);
            && s.items == |s.subs| + |s.pending| + |s.others| <= s.config.maxItems
            && s.bytes == Total(SubBytes(s.subs)) + Total(RequestBytes(s.pending)) + Total(s.others)
            && s.bytes <= s.config.maxBytes
            && (forall id | id in s.subs :: s.config.measure(s.subs[id].frame) == Some(s.subs[id].bytes))
            && (forall id | id in s.subs && s.subs[id].stream.Outcomes? ::
                  s.subs[id].frame == SubscribeFrame(id, s.subs[id].stream.cursor))
            && (forall id | id in s.pending ::
                  s.config.measure(Call(id, s.pending[id].kind)) == Some(s.pending[id].bytes))
  {
    hide Possible, Run, Ledgered, Truthful, Chained, Converges, Timers, Flight, Carried, Endings, Admitted, Linked,
         Standing;
    hide Total, SubBytes, RequestBytes;
    RunInvariant(b, ms);
    var s := Run(b, ms);
    forall id | id in s.subs
      ensures s.config.measure(s.subs[id].frame) == Some(s.subs[id].bytes)
      ensures s.subs[id].stream.Outcomes? ==> s.subs[id].frame == SubscribeFrame(id, s.subs[id].stream.cursor)
    {
      assert SubSized(s.config, id, s.subs[id]);
    }
  }

  /** A connection that is not the current one has no say. */
  lemma OthersAreIgnored(s: State, env: Env, e: Event)
    requires e.Opened? || e.Incoming? || e.Lost?
    requires !Current(s, e.generation)
    ensures Step(s, env, e) == s.(env := env)
  {
    hide Dispatch, Fail, LoseConnection, Send;
  }

  lemma LeaveBehind(s: State, w: World, g: nat)
    requires Inv(s, w) && g <= s.generation && !Current(s, g)
    ensures Inv(s, w.(retired := Some(g)))
  {
    hide Books, Ledgered, Truthful, Chained, Timers, Flight, Carried, Endings, Admitted, Linked, Standing;
    hide Converges;
    ConvergesElsewhere(s, w, w.(retired := Some(g)));
  }

  /**
   * A connection that was dialed and is not the current one never becomes current
   * again, and whatever its socket still calls back changes nothing.
   */
  lemma RetiredSocketIsIgnored(b: Beginning, ms: seq<Moment>, more: seq<Moment>, g: nat)
    requires Possible(b, ms + more)
    requires g <= Run(b, ms).generation && !Current(Run(b, ms), g)
    ensures !Current(Run(b, ms + more), g)
    ensures forall env, e: Event | (e.Opened? || e.Incoming? || e.Lost?) && e.generation == g ::
              Step(Run(b, ms + more), env, e) == Run(b, ms + more).(env := env)
  {
    hide Possible, Run, Promises, Grows, Step;
    hide Books, Ledgered, Truthful, Chained, Converges, Timers, Flight, Carried, Endings, Admitted, Linked, Standing;
    PossiblePrefix(b, ms, more);
    RunHolds(b, ms, ArbitraryServer);
    LeaveBehind(Run(b, ms), World(ArbitraryServer, {}, Promises(b, ms), None, Now(b, ms)), g);
    RunKeeps(b, ms, more, ArbitraryServer, Some(g));
    forall env, e: Event | (e.Opened? || e.Incoming? || e.Lost?) && e.generation == g
      ensures Step(Run(b, ms + more), env, e) == Run(b, ms + more).(env := env)
    {
      OthersAreIgnored(Run(b, ms + more), env, e);
    }
  }
}
