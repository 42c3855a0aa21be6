/** Frames, timers and calls keep the invariants. */
module SessionEvents {
  import opened Basics
  import opened Protocol
  import opened SessionSpec
  import opened SessionInvariants
  import opened SessionAtoms
  import opened SessionConnection
  import opened SessionSending
  import opened SessionFlushing
  import opened SessionTransitions

  // ------------------------------------------------------------------ results

  lemma AnswerAllowed(s: State, id: nat, answer: Answer, w: World)
    requires Inv(s, w) && id in s.pending && !s.pending[id].kind.Mutation?
    ensures EndingAllowed(s, id, Answered(answer), w)
  {
    hide Books, Ledgered, Truthful, Chained, Converges, Timers, Carried, Endings, Admitted, Linked, Standing;
    assert RequestFlight(s.log.wire, s.socket && s.ready, s.generation, s.attempt, id, s.pending[id]);
  }

  /** What a receipt promises: the subscriptions it names among those registered when it comes. */
  ghost function PromiseOf(s: State, receipt: Receipt, answer: Answer): Promise {
    var registered := Named(receipt) * s.subs.Keys;
    Promise(receipt.commitVersion, answer, registered, map k | k in registered :: |HeldBy(s.log, k)|)
  }

  /** The receipt for a request has come. */
  ghost function Promising(w: World, id: nat, p: Promise): World {
    w.(promised := w.promised[id := p])
  }

  /** A promise just made: histories are as long as its marks say. */
  ghost predicate JustMade(s: State, p: Promise) {
    && p.registered <= s.subs.Keys
    && (forall k | k in p.registered :: s.subs[k].stream.Outcomes? && MarkOf(p, k) == |HeldBy(s.log, k)|)
  }

  /** A registered query that is not behind has reached the version, and one that is behind is waited for. */
  lemma BehindOrPast(s: State, k: nat, p: Promise)
    requires Chained(s.subs, s.log.held) && k in s.subs && s.subs[k].stream.Outcomes?
    requires MarkOf(p, k) == |HeldBy(s.log, k)|
    ensures Behind(s.subs[k], p.version) ==> Waiting(s.subs, s.log.held, k, p)
    ensures !Behind(s.subs[k], p.version) ==> Past(s.subs, s.log.held, k, p)
  {
    hide Increasing;
    var hs := CursorsOf(s.log.held, k);
    assert s.subs[k].stream.cursor == if hs == [] then None else Some(hs[|hs| - 1].cursor);
  }

  ghost predicate PledgeMade(s: State, q: Pledge, p: Promise) {
    && JustMade(s, p)
    && Convergence(q) == Kept(p)
    && q.obligations == set k | k in q.registered && Behind(s.subs[k], q.version)
  }

  lemma ConvergeAtOnce(s: State, id: nat, q: Pledge, p: Promise, w: World)
    requires Inv(s, w) && id in s.pending && s.pending[id].kind.Mutation?
    requires PledgeMade(s, q, p) && q.obligations == {}
    ensures EndingAllowed(s, id, Convergence(q), Promising(w, id, p))
  {
    hide Books, Truthful, Chained, Converges, Timers, Carried, Endings, Admitted, Linked, Standing, Flight;
    hide Behind, Past, Waiting;
    forall k | k in p.registered
      ensures Past(s.subs, s.log.held, k, p)
    {
      assert k !in q.obligations;
      BehindOrPast(s, k, p);
    }
  }

  /** What is learnt about a request that is about to be settled or pledged anew. */
  lemma PromiseElsewhere(s: State, id: nat, p: Promise, w: World, pending: map<nat, Request>)
    requires Converges(s.subs, s.pending, s.log.settled, s.log.held, w) && id !in s.log.settled
    requires forall n | n in pending && n != id :: n in s.pending && pending[n] == s.pending[n]
    requires id in pending ==> PledgeHolds(s.subs, s.log.held, Promising(w, id, p), id, pending[id])
    ensures Converges(s.subs, pending, s.log.settled, s.log.held, Promising(w, id, p))
  {
    hide Past, Waiting, WaitingTillNow;
    var v := Promising(w, id, p);
    forall n | n in pending
      ensures PledgeHolds(s.subs, s.log.held, v, n, pending[n])
    {
      if n != id { assert PledgeHolds(s.subs, s.log.held, w, n, s.pending[n]); }
    }
    forall n | n in s.log.settled
      ensures ConvergedHolds(s.subs, s.log.held, v.promised, n, s.log.settled[n])
    {
      assert ConvergedHolds(s.subs, s.log.held, w.promised, n, s.log.settled[n]);
    }
  }

  lemma PledgeBinds(s: State, id: nat, q: Pledge, p: Promise, w: World)
    requires Inv(s, w) && w.leaving == {} && id in s.pending && s.pending[id].kind.Mutation?
    requires PledgeMade(s, q, p) && q.obligations != {}
    ensures PledgeHolds(s.subs, s.log.held, Promising(w, id, p), id, s.pending[id].(pledge := Some(q)))
  {
    hide Books, Ledgered, Truthful, Chained, Timers, Carried, Endings, Admitted, Linked, Standing, Behind, Past,
         Waiting;
    hide Flight, Converges, WaitingTillNow;
    forall k | k in p.registered
      ensures k in q.obligations ==> Waiting(s.subs, s.log.held, k, p)
      ensures k !in q.obligations ==> Past(s.subs, s.log.held, k, p)
    {
      BehindOrPast(s, k, p);
    }
  }

  ghost function Repledged(s: State, id: nat, q: Pledge): State
    requires id in s.pending
  {
    s.(pending := s.pending[id := s.pending[id].(pledge := Some(q))])
  }

  lemma PledgeLedger(s: State, id: nat, q: Pledge)
    requires id in s.pending && q.registered <= s.subs.Keys
    requires Ledgered(s.nextId, s.subs, s.pending, s.log.settled, s.log.issued, s.log.delivered, s.log.held)
    ensures Ledgered(s.nextId, s.subs, Repledged(s, id, q).pending, s.log.settled,
                     s.log.issued, s.log.delivered, s.log.held)
    ensures id !in s.log.settled
  {
    assert Repledged(s, id, q).pending.Keys == s.pending.Keys;
  }

  lemma PledgeFlight(s: State, id: nat, q: Pledge)
    requires id in s.pending
    requires Timers(s.config, s.env.now, s.arms, s.pending)
    requires Flight(s.log.wire, s.socket && s.ready, s.generation, s.attempt, s.pending)
    ensures var pending := Repledged(s, id, q).pending;
            && Timers(s.config, s.env.now, s.arms, pending)
            && Flight(s.log.wire, s.socket && s.ready, s.generation, s.attempt, pending)
  {
    assert RequestFlight(s.log.wire, s.socket && s.ready, s.generation, s.attempt, id, s.pending[id]);
    assert RequestTimer(s.config, s.env.now, s.arms, s.pending[id]);
  }

  /** A receipt replaces what a waiting mutation was waiting for. */
  lemma RepledgeKeeps(s: State, id: nat, q: Pledge, p: Promise, w: World)
    requires Inv(s, w) && id in s.pending && q.registered <= s.subs.Keys
    requires PledgeHolds(s.subs, s.log.held, Promising(w, id, p), id, s.pending[id].(pledge := Some(q)))
    ensures Inv(Repledged(s, id, q), Promising(w, id, p))
  {
    hide Books, Ledgered, Truthful, Chained, Converges, Timers, Flight, Carried, Endings, Admitted, PledgeHolds;
    var t := Repledged(s, id, q);
    PledgeLedger(s, id, q);
    PledgeFlight(s, id, q);
    CarriedFewer(s.log.wire, s.socket, s.generation, s.subs, s.pending, s.subs, t.pending);
    PromiseElsewhere(s, id, p, w, t.pending);
    MarkBooks(s.config, s.subs, s.pending, s.others, s.items, s.bytes, t.pending);
  }

  lemma MadeRegistered(s: State, q: Pledge, p: Promise)
    requires PledgeMade(s, q, p)
    ensures q.registered <= s.subs.Keys
  {
  }

  lemma ConvergeKeeps(s: State, id: nat, q: Pledge, p: Promise, w: World)
    requires Inv(s, w) && id in s.pending && s.pending[id].kind.Mutation?
    requires PledgeMade(s, q, p) && q.obligations == {}
    ensures var t := Finish(s, id, Convergence(q));
            Inv(t, Promising(w, id, p)) && Extends(s.log, t.log)
  {
    hide Inv, Extends, Settle, PledgeMade, EndingAllowed;
    ConvergeAtOnce(s, id, q, p, w);
    SettleKeeps(s, map[id := Convergence(q)], w, Promising(w, id, p));
  }

  /** A promise about a request that is neither waiting nor settled changes nothing. */
  lemma PromiseAside(s: State, id: nat, p: Promise, w: World)
    requires Inv(s, w) && id !in s.pending
    requires id in s.log.settled ==> !s.log.settled[id].settlement.Converged?
    ensures Inv(s, Promising(w, id, p))
  {
    hide Books, Ledgered, Truthful, Chained, Timers, Flight, Carried, Endings, Admitted, Linked, Standing;
    hide Past, Waiting, WaitingTillNow;
    forall n | n in s.pending
      ensures PledgeHolds(s.subs, s.log.held, Promising(w, id, p), n, s.pending[n])
    {
      assert PledgeHolds(s.subs, s.log.held, w, n, s.pending[n]);
    }
    forall n | n in s.log.settled
      ensures ConvergedHolds(s.subs, s.log.held, Promising(w, id, p).promised, n, s.log.settled[n])
    {
      assert ConvergedHolds(s.subs, s.log.held, w.promised, n, s.log.settled[n]);
    }
  }

  lemma TakePledgeKeeps(s: State, id: nat, q: Pledge, p: Promise, w: World)
    requires Inv(s, w) && w.leaving == {} && id in s.pending && s.pending[id].kind.Mutation? && PledgeMade(s, q, p)
    ensures var t := if q.obligations == {} then Finish(s, id, Convergence(q))
                     else s.(pending := s.pending[id := s.pending[id].(pledge := Some(q))]);
            Inv(t, Promising(w, id, p)) && Extends(s.log, t.log)
  {
    hide Inv, Extends, Finish, PledgeMade, Promising, PledgeHolds;
    ExtendsItself(s.log);
    if q.obligations == {} {
      ConvergeKeeps(s, id, q, p, w);
    } else {
      PledgeBinds(s, id, q, p, w);
      MadeRegistered(s, q, p);
      RepledgeKeeps(s, id, q, p, w);
    }
  }

  ghost function PledgeFor(s: State, receipt: Receipt, answer: Answer): Pledge {
    var registered := Named(receipt) * s.subs.Keys;
    Pledge(receipt.commitVersion, answer, registered, Late(s.subs, registered, receipt.commitVersion))
  }

  lemma PledgeForMade(s: State, receipt: Receipt, answer: Answer)
    requires !exists k :: k in Named(receipt) * s.subs.Keys && s.subs[k].stream.Events?
    ensures PledgeMade(s, PledgeFor(s, receipt, answer), PromiseOf(s, receipt, answer))
  {
    hide Named, Behind;
  }

  /** Failing settles every request, and as a rejection. */
  lemma FailRejects(s: State, id: nat, code: Code, w: World)
    requires Inv(s, w) && id in s.pending
    ensures var t := Fail(s, code);
            id !in t.pending && id in t.log.settled && t.log.settled[id].settlement.Rejected?
  {
    hide Books, Ledgered, Truthful, Chained, Converges, Timers, Flight, Carried, Endings, Admitted;
  }

  lemma FailPromising(s: State, id: nat, p: Promise, w: World)
    requires Inv(s, w) && id in s.pending
    ensures Inv(Fail(s, Malformed), Promising(w, id, p)) && Extends(s.log, Fail(s, Malformed).log)
  {
    hide Inv, Extends, Fail, Promising;
    InvFailed(s, Malformed, w);
    FailRejects(s, id, Malformed, w);
    PromiseAside(Fail(s, Malformed), id, p, w);
  }

  lemma ApplyReceiptKeeps(s: State, id: nat, receipt: Receipt, answer: Answer, w: World)
    requires Inv(s, w) && w.leaving == {} && id in s.pending && s.pending[id].kind.Mutation?
    ensures var t := ApplyReceipt(s, id, receipt, answer);
            Inv(t, Promising(w, id, PromiseOf(s, receipt, answer))) && Extends(s.log, t.log)
  {
    hide Inv, Extends, Fail, Finish, Behind, Late, Named, PledgeMade, Convergence, Promising, PromiseOf;
    var p := PromiseOf(s, receipt, answer);
    if receipt.requestId != s.pending[id].requestId {
      FailPromising(s, id, p, w);
    } else if exists k :: k in Named(receipt) * s.subs.Keys && s.subs[k].stream.Events? {
      FailPromising(s, id, p, w);
    } else {
      PledgeForMade(s, receipt, answer);
      TakePledgeKeeps(s, id, PledgeFor(s, receipt, answer), p, w);
    }
  }

  /** This frame is the receipt of a mutation that is waiting for one. */
  ghost predicate IsReceipt(s: State, id: nat, kind: Kind, receipt: Option<Receipt>) {
    id in s.pending && kind == s.pending[id].kind && kind.Mutation? && receipt.Some?
  }

  /** What is known once a result has been applied. */
  ghost function Learning(s: State, id: nat, kind: Kind, answer: Answer, receipt: Option<Receipt>, w: World): World {
    if IsReceipt(s, id, kind, receipt) then Promising(w, id, PromiseOf(s, receipt.value, answer)) else w
  }

  /** This frame is the server's ending of a waiting request. */
  ghost predicate Ends(s: State, f: ServerFrame, id: nat, d: Settled) {
    && id in s.pending && d.kind == s.pending[id].kind
    && match d.settlement
       case Answered(answer) => f.Result? && f.id == id && f.kind == d.kind && f.answer == answer
       case Rejected(_, code) => f.Failure? && f.target == Some(id) && f.error.code == code
       case Converged(_, _, _) => true
  }

  /** Every answer and server error newly recorded was brought by this frame. */
  ghost predicate BroughtBy(s: State, f: ServerFrame, t: State) {
    forall id | id in t.log.settled && id !in s.log.settled && FromServer(t.log.settled[id].settlement) ::
      Ends(s, f, id, t.log.settled[id])
  }

  lemma NothingBrought(s: State, f: ServerFrame, t: State)
    requires Extends(s.log, t.log)
    ensures Resolves(s.log, t.log) && BroughtBy(s, f, t)
  {
  }

  lemma FinishBrings(s: State, f: ServerFrame, id: nat, how: Settlement, w: World)
    requires Inv(s, w) && id in s.pending && Ends(s, f, id, Settled(s.pending[id].kind, how))
    ensures BroughtBy(s, f, Finish(s, id, how))
  {
    hide Inv, Total, At, RequestBytes;
  }

  lemma ApplyResultKeeps(s: State, id: nat, kind: Kind, answer: Answer, receipt: Option<Receipt>, w: World)
    requires Inv(s, w) && w.leaving == {}
    ensures var t := ApplyResult(s, id, kind, answer, receipt);
            && Inv(t, Learning(s, id, kind, answer, receipt, w)) && Resolves(s.log, t.log)
            && BroughtBy(s, Result(id, kind, answer, receipt), t)
  {
    hide Inv, Resolves, Extends, Fail, Finish, ApplyReceipt, EndingAllowed, Promising, PromiseOf, BroughtBy;
    ExtendsItself(s.log);
    NothingBrought(s, Result(id, kind, answer, receipt), s);
    InvFailed(s, Malformed, w);
    NothingBrought(s, Result(id, kind, answer, receipt), Fail(s, Malformed));
    if id in s.pending && kind == s.pending[id].kind {
      if !kind.Mutation? {
        AnswerAllowed(s, id, answer, w);
        FinishKeeps(s, id, Answered(answer), w);
        FinishBrings(s, Result(id, kind, answer, receipt), id, Answered(answer), w);
      } else if receipt.Some? {
        ApplyReceiptKeeps(s, id, receipt.value, answer, w);
        NothingBrought(s, Result(id, kind, answer, receipt), ApplyReceipt(s, id, receipt.value, answer));
      }
    }
  }

  // ------------------------------------------------------------------- errors

  lemma BlockKeeps(s: State, e: Error, w: World)
    requires Inv(s, w) && s.socket
    ensures Inv(Block(s, e), w) && Extends(s.log, Block(s, e).log)
  {
    hide Books, Ledgered, Truthful, Chained, Converges, Timers, Flight, Carried, Endings, Admitted, Extends, Grounded;
    hide SettleAll;
    var a := SettleAll(s, AuthenticationBlocked, e.code);
    SettleAllKeepsData(s, AuthenticationBlocked, e.code, w);
    SettleAllFrame(s, AuthenticationBlocked, e.code);
    NotifyAllKeepsData(a, Trouble(e), w);
    var b := NotifyAll(a, Trouble(e));
    EmptyFlight(b.log.wire, b.socket && b.ready, b.generation, None);
    RetireKeepsData(b.(blocked := true, resuming := false, attempt := None), w);
    ExtendsTransitive(s.log, a.log, b.log);
  }

  lemma ScheduleRetryKeeps(s: State, id: nat, w: World)
    requires Inv(s, w) && id in s.subs
    ensures Inv(ScheduleRetry(s, id), w) && Extends(s.log, ScheduleRetry(s, id).log)
  {
    hide Inv, Extends, Fail;
    ExtendsItself(s.log);
    if !s.subs[id].waiting {
      TweakSubKeeps(s, id, s.subs[id].(sent := None), w);
      var s1 := s.(subs := s.subs[id := s.subs[id].(sent := None)]);
      InvFailed(s1, Internal, w);
      TweakSubKeeps(s1, id, s1.subs[id].(waiting := true), w);
    }
  }

  lemma RetryAdmitted(admissions: seq<Admission>, notBefore: nat, d: nat, generation: nat, now: nat)
    requires Admitted(admissions, notBefore, generation, now)
    ensures Admitted(admissions + [NotBefore(d)], if notBefore < d then d else notBefore, generation, now)
  {
    assert (admissions + [NotBefore(d)])[..|admissions|] == admissions;
  }

  lemma RetryExtends(log: Log, d: nat)
    ensures Extends(log, log.(admissions := log.admissions + [NotBefore(d)]))
  {
  }

  lemma ApplyConnectionErrorKeeps(s: State, e: Error, w: World)
    requires Inv(s, w) && s.socket
    ensures Inv(ApplyConnectionError(s, e), w) && Extends(s.log, ApplyConnectionError(s, e).log)
  {
    hide Books, Ledgered, Truthful, Chained, Converges, Timers, Flight, Carried, Endings, Admitted, Extends;
    hide Block, Fail;
    if e.retryable {
      var d := RetryDeadline(s.env.now, e);
      RetryAdmitted(s.log.admissions, s.notBefore, d, s.generation, s.env.now);
      RetryExtends(s.log, d);
    } else if IsAuthCode(e.code) {
      BlockKeeps(s, e, w);
    } else {
      InvFailed(s, e.code, w);
    }
  }

  lemma ApplyErrorKeeps(s: State, target: Option<nat>, e: Error, w: World)
    requires Inv(s, w) && w.leaving == {} && s.socket
    ensures var t := ApplyError(s, target, e);
            Inv(t, w) && Resolves(s.log, t.log) && BroughtBy(s, Failure(target, e), t)
  {
    hide Inv, Resolves, Extends, ApplyConnectionError, Block, Finish, Notify, ScheduleRetry, RemoveSub, BroughtBy;
    ExtendsItself(s.log);
    if target.Some? && !Presents(s, target.value) && target.value in s.pending {
      var id := target.value;
      RejectKeeps(s, id, s.pending[id], ServerError, e.code, w);
      FinishBrings(s, Failure(target, e), id, Rejected(ServerError, e.code), w);
    } else {
      OtherErrorKeeps(s, target, e, w);
      NothingBrought(s, Failure(target, e), ApplyError(s, target, e));
    }
  }

  predicate Presents(s: State, id: nat) {
    s.attempt.Some? && s.attempt.value.id == id
  }

  /** An error that is not a request's. */
  lemma OtherErrorKeeps(s: State, target: Option<nat>, e: Error, w: World)
    requires Inv(s, w) && w.leaving == {} && s.socket
    requires target.Some? ==> Presents(s, target.value) || target.value !in s.pending
    ensures Inv(ApplyError(s, target, e), w) && Extends(s.log, ApplyError(s, target, e).log)
  {
    hide Inv, Extends, ApplyConnectionError, Block, Finish, Notify, ScheduleRetry, RemoveSub;
    ExtendsItself(s.log);
    match target
    case None => ApplyConnectionErrorKeeps(s, e, w);
    case Some(id) =>
      if Presents(s, id) {
        BlockKeeps(s, e, w);
      } else if id in s.subs {
        TroubleKeeps(s, id, e, w);
      }
  }

  lemma TroubleKeeps(s: State, id: nat, e: Error, w: World)
    requires Inv(s, w) && w.leaving == {} && id in s.subs
    ensures var s1 := Notify(s, id, Trouble(e));
            var t := if e.retryable then ScheduleRetry(s1, id) else RemoveSub(s1, id, false);
            Inv(t, w) && Extends(s.log, t.log)
  {
    hide Inv, Extends, ScheduleRetry, RemoveSub;
    SubFrames(s, id, w);
    NotifyKeeps(s, id, Trouble(e), w);
    var s1 := Notify(s, id, Trouble(e));
    ScheduleRetryKeeps(s1, id, w);
    RemoveSubKeeps(s1, id, false, w);
    ExtendsTransitive(s.log, s1.log, if e.retryable then ScheduleRetry(s1, id).log else RemoveSub(s1, id, false).log);
  }

  // ----------------------------------------------------------- authentication

  lemma AttemptGone(wire: seq<Transmission>, live: bool, generation: nat, attempt: Option<Attempt>,
                    pending: map<nat, Request>)
    requires Flight(wire, live, generation, attempt, pending)
    ensures Flight(wire, live, generation, None, pending)
  {
    forall id | id in pending
      ensures RequestFlight(wire, live, generation, None, id, pending[id])
    {
      assert RequestFlight(wire, live, generation, attempt, id, pending[id]);
    }
  }

  lemma ForgetAttemptKeeps(s: State, w: World)
    requires Inv(s, w)
    ensures Inv(s.(attempt := None), w)
  {
    hide Books, Ledgered, Truthful, Chained, Converges, Timers, Flight, Carried, Endings, Admitted;
    AttemptGone(s.log.wire, s.socket && s.ready, s.generation, s.attempt, s.pending);
  }

  lemma BecomeReadyKeeps(s: State, w: World)
    requires Inv(s, w) && s.socket && !s.ready
    ensures Inv(s.(ready := true, everReady := true, resuming := false), w)
  {
    hide Books, Ledgered, Truthful, Chained, Converges, Timers, Flight, Carried, Endings, Admitted, Grounded;
    DeadIsGrounded(s);
    GroundedFlight(s.log.wire, false, s.generation, s.attempt, s.pending, true, s.generation, s.attempt);
  }

  lemma ApplyWelcomeKeeps(s: State, session: string, w: World)
    requires Inv(s, w) && s.socket
    ensures Inv(ApplyWelcome(s, session), w) && Extends(s.log, ApplyWelcome(s, session).log)
  {
    hide Inv, Extends, Fail, Send, Flush;
    ExtendsItself(s.log);
    InvFailed(s, Malformed, w);
    if session == s.config.session && !s.ready {
      BecomeReadyKeeps(s, w);
      var s1 := s.(ready := true, everReady := true, resuming := false);
      ForgetAttemptKeeps(s1, w);
      if s1.attempt.Some? { SendKeeps(s1, Auth(s1.attempt.value.id, s1.attempt.value.credential), w); }
      var s2 := if s1.attempt.None? then s1
                else if s1.hello == Some(s1.attempt.value.credential) then s1.(attempt := None)
                else SendAuth(s1);
      FlushKeeps(s2, w);
      ExtendsTransitive(s.log, s2.log, Flush(s2).log);
    }
  }

  lemma ApplyAuthAcceptedKeeps(s: State, attemptId: nat, w: World)
    requires Inv(s, w)
    ensures Inv(ApplyAuthAccepted(s, attemptId), w) && Extends(s.log, ApplyAuthAccepted(s, attemptId).log)
  {
    hide Inv, Extends, Flush;
    ExtendsItself(s.log);
    ForgetAttemptKeeps(s, w);
    FlushKeeps(s.(attempt := None), w);
  }

  lemma ExpireAttemptKeeps(s: State, w: World)
    requires Inv(s, w) && Grounded(s.log.wire, s.pending)
    requires !s.closed
    ensures Inv(ExpireAttempt(s), w) && ExpireAttempt(s).log == s.log
  {
    hide Books, Ledgered, Truthful, Chained, Converges, Timers, Flight, Carried, Endings, Admitted, Grounded;
    var s1 := s.(attempt := None, blocked := true, resuming := false);
    GroundedFlight(s.log.wire, s.socket && s.ready, s.generation, s.attempt, s.pending,
                   s.socket && s.ready, s.generation, None);
    RetireKeepsData(s1, w);
  }
}
