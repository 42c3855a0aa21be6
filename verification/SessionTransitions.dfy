/** Cursor transitions, removals and the convergence they trigger keep the invariants. */
module SessionTransitions {
  import opened Basics
  import opened Protocol
  import opened SessionSpec
  import opened SessionInvariants
  import opened SessionAtoms
  import opened SessionConnection
  import opened SessionSending
  import opened SessionFlushing

  ghost function Leaving(w: World, id: nat): World { w.(leaving := {id}) }

  ghost function Steady(w: World): World { w.(leaving := {}) }

  // -------------------------------------------------------------- discharging

  /** The subscription whose mutations are being told is gone, or holds exactly this version. */
  ghost predicate Reports(subs: map<nat, Subscription>, held: map<nat, seq<Held>>, id: nat, upTo: Option<nat>) {
    match upTo
    case None => id !in subs
    case Some(v) =>
      && id in subs && subs[id].stream.Outcomes?
      && subs[id].stream.cursor.Some? && subs[id].stream.cursor.value.commitVersion == v
      && CursorsOf(held, id) != [] && CursorsOf(held, id)[|CursorsOf(held, id)| - 1].cursor.commitVersion == v
  }

  lemma ReportsPast(subs: map<nat, Subscription>, held: map<nat, seq<Held>>, id: nat, upTo: Option<nat>, p: Promise)
    requires Reports(subs, held, id, upTo) && (upTo.Some? ==> p.version <= upTo.value)
    requires MarkOf(p, id) <= |CursorsOf(held, id)|
    ensures Past(subs, held, id, p)
  {
    if id in subs {
      var hs := CursorsOf(held, id);
      assert hs[|hs| - 1].cursor.commitVersion >= p.version;
    }
  }

  /** A version is reached before the last move or by it. */
  lemma LastMove(hs: seq<Held>, mark: nat, version: nat)
    requires hs != []
    ensures ReachedSince(hs, mark, version) <==>
              ReachedSince(Earlier(hs), mark, version) ||
              (mark <= |hs| && hs[|hs| - 1].cursor.commitVersion >= version)
  {
    if ReachedSince(Earlier(hs), mark, version) {
      var i :| 0 <= i < |Earlier(hs)| && mark <= i + 1 && Earlier(hs)[i].cursor.commitVersion >= version;
      assert hs[i] == Earlier(hs)[i];
    }
    if ReachedSince(hs, mark, version) {
      var i :| 0 <= i < |hs| && mark <= i + 1 && hs[i].cursor.commitVersion >= version;
      if i < |hs| - 1 { assert Earlier(hs)[i] == hs[i]; }
    }
    assert hs[|hs| - 1].cursor.commitVersion >= version && mark <= |hs| ==> ReachedSince(hs, mark, version);
  }

  /** A subscription that does not report far enough is still waited for. */
  lemma ReportsWaiting(subs: map<nat, Subscription>, held: map<nat, seq<Held>>, id: nat, upTo: nat, p: Promise)
    requires Reports(subs, held, id, Some(upTo)) && upTo < p.version && WaitingTillNow(subs, held, id, p)
    ensures Waiting(subs, held, id, p)
  {
    hide ReachedSince, Earlier;
    LastMove(CursorsOf(held, id), MarkOf(p, id), p.version);
  }

  lemma ReducedPledge(subs: map<nat, Subscription>, held: map<nat, seq<Held>>, id: nat, upTo: Option<nat>,
                      n: nat, r: Request, w: World)
    requires PledgeHolds(subs, held, Leaving(w, id), n, r) && Reports(subs, held, id, upTo)
    ensures Released(r, id, upTo) && r.pledge.value.obligations != {id} ==>
              PledgeHolds(subs, held, Steady(w), n, WithoutObligation(r, id))
    ensures !Released(r, id, upTo) ==> PledgeHolds(subs, held, Steady(w), n, r)
  {
    hide Past, Waiting, WaitingTillNow, Reports;
    if r.pledge.Some? {
      var p := r.pledge.value;
      if Released(r, id, upTo) {
        ReportsPast(subs, held, id, upTo, w.promised[n]);
        if p.obligations != {id} {
          var k :| k in p.obligations && k != id;
          assert k in p.obligations - {id};
        }
      } else if id in p.obligations {
        ReportsWaiting(subs, held, id, upTo.value, w.promised[n]);
      }
    }
  }

  lemma ConvergingAllowed(s: State, id: nat, upTo: Option<nat>, r: nat, w: World)
    requires Data(s, w) && w.leaving == {id} && Reports(s.subs, s.log.held, id, upTo)
    requires r in Converging(s.pending, id, upTo)
    ensures EndingAllowed(s, r, Converging(s.pending, id, upTo)[r], w)
  {
    hide Books, Truthful, Chained, Timers, Flight, Carried, Endings, Admitted, Past, Waiting, WaitingTillNow, Reports;
    var p := s.pending[r].pledge.value;
    assert PledgeHolds(s.subs, s.log.held, w, r, s.pending[r]);
    ReportsPast(s.subs, s.log.held, id, upTo, w.promised[r]);
    forall k | k in p.registered
      ensures Past(s.subs, s.log.held, k, w.promised[r])
    {
      if k != id { assert k in p.registered - p.obligations; }
    }
  }

  lemma ReduceConverges(subs: map<nat, Subscription>, held: map<nat, seq<Held>>, settled: map<nat, Settled>,
                        pending: map<nat, Request>, id: nat, upTo: Option<nat>, w: World)
    requires Converges(subs, pending, settled, held, Leaving(w, id)) && Reports(subs, held, id, upTo)
    requires Converging(pending, id, upTo) == map[]
    ensures Converges(subs, Reduced(pending, id, upTo), settled, held, Steady(w))
  {
    hide PledgeHolds, ConvergedHolds, Reports;
    forall r | r in pending
      ensures PledgeHolds(subs, held, Steady(w), r, Reduced(pending, id, upTo)[r])
    {
      ReducedPledge(subs, held, id, upTo, r, pending[r], w);
      assert r !in Converging(pending, id, upTo);
    }
  }

  /** Dropping obligations leaves sizes, timers and transmissions alone. */
  lemma ReduceLedger(s: State, p: map<nat, Request>, id: nat, upTo: Option<nat>)
    requires p == Reduced(s.pending, id, upTo)
    requires Ledgered(s.nextId, s.subs, s.pending, s.log.settled, s.log.issued, s.log.delivered, s.log.held)
    ensures Ledgered(s.nextId, s.subs, p, s.log.settled, s.log.issued, s.log.delivered, s.log.held)
  {
    assert p.Keys == s.pending.Keys;
  }

  lemma ReduceFlight(s: State, p: map<nat, Request>, id: nat, upTo: Option<nat>)
    requires p == Reduced(s.pending, id, upTo)
    requires Timers(s.config, s.env.now, s.arms, s.pending)
    requires Flight(s.log.wire, s.socket && s.ready, s.generation, s.attempt, s.pending)
    ensures Timers(s.config, s.env.now, s.arms, p)
    ensures Flight(s.log.wire, s.socket && s.ready, s.generation, s.attempt, p)
  {
    forall r | r in p
      ensures RequestFlight(s.log.wire, s.socket && s.ready, s.generation, s.attempt, r, p[r])
      ensures RequestTimer(s.config, s.env.now, s.arms, p[r])
    {
      assert RequestFlight(s.log.wire, s.socket && s.ready, s.generation, s.attempt, r, s.pending[r]);
      assert RequestTimer(s.config, s.env.now, s.arms, s.pending[r]);
    }
  }

  lemma ReduceKeepsData(s: State, id: nat, upTo: Option<nat>, w: World)
    requires Data(s, w) && w.leaving == {id} && Reports(s.subs, s.log.held, id, upTo)
    requires Converging(s.pending, id, upTo) == map[]
    ensures Data(s.(pending := Reduced(s.pending, id, upTo)), Steady(w))
  {
    hide Books, Ledgered, Truthful, Chained, Converges, Timers, Flight, Carried, Endings, Admitted, Reports, Converging;
    var p := Reduced(s.pending, id, upTo);
    assert w == Leaving(w, id);
    ReduceConverges(s.subs, s.log.held, s.log.settled, s.pending, id, upTo, w);
    ReduceLedger(s, p, id, upTo);
    ReduceFlight(s, p, id, upTo);
    ReduceCarried(s, id, upTo);
    MarkBooks(s.config, s.subs, s.pending, s.others, s.items, s.bytes, p);
  }

  lemma ReduceCarried(s: State, id: nat, upTo: Option<nat>)
    requires Carried(s.log.wire, s.socket, s.generation, s.subs, s.pending)
    ensures Carried(s.log.wire, s.socket, s.generation, s.subs, Reduced(s.pending, id, upTo))
  {
    hide Carried, Released;
    CarriedFewer(s.log.wire, s.socket, s.generation, s.subs, s.pending, s.subs, Reduced(s.pending, id, upTo));
  }

  lemma NoneLeftConverging(pending: map<nat, Request>, id: nat, upTo: Option<nat>)
    ensures Converging(pending - Converging(pending, id, upTo).Keys, id, upTo) == map[]
  {
  }

  lemma DischargeKeepsData(s: State, id: nat, upTo: Option<nat>, w: World)
    requires Data(s, w) && w.leaving == {id} && Reports(s.subs, s.log.held, id, upTo)
    ensures Data(Discharge(s, id, upTo), Steady(w)) && Extends(s.log, Discharge(s, id, upTo).log)
  {
    hide Data, Extends, EndingAllowed, Settle, Converging, Reduced, Reports;
    var done := Converging(s.pending, id, upTo);
    ConvergingWithin(s.pending, id, upTo);
    forall r | r in done
      ensures EndingAllowed(s, r, done[r], w)
    {
      ConvergingAllowed(s, id, upTo, r, w);
    }
    SettleKeepsData(s, done, w, w);
    SettleFrame(s, done);
    NoneLeftConverging(s.pending, id, upTo);
    ReduceKeepsData(Settle(s, done), id, upTo, w);
  }

  lemma ConvergingWithin(pending: map<nat, Request>, id: nat, upTo: Option<nat>)
    ensures Converging(pending, id, upTo).Keys <= pending.Keys
    ensures forall r | r in Converging(pending, id, upTo) :: Converging(pending, id, upTo)[r].Converged?
  {
  }

  lemma DischargeFrame(s: State, id: nat, upTo: Option<nat>)
    ensures OnlySettled(s, Discharge(s, id, upTo))
    ensures Discharge(s, id, upTo).pending.Keys <= s.pending.Keys
    ensures forall r | r in Discharge(s, id, upTo).pending ::
              Discharge(s, id, upTo).pending[r].kind == s.pending[r].kind
  {
    hide Settle;
    SettleFrame(s, Converging(s.pending, id, upTo));
  }

  lemma DischargeIds(s: State, id: nat, upTo: Option<nat>)
    ensures Discharge(s, id, upTo).nextId == s.nextId && Discharge(s, id, upTo).log.delivered == s.log.delivered
  {
    hide Discharge;
    DischargeFrame(s, id, upTo);
  }

  lemma DischargeStanding(s: State, id: nat, upTo: Option<nat>)
    requires Standing(s)
    ensures Standing(Discharge(s, id, upTo))
  {
    hide Discharge;
    DischargeFrame(s, id, upTo);
  }

  lemma DischargeKeeps(s: State, id: nat, upTo: Option<nat>, w: World)
    requires Inv(s, w) && w.leaving == {id} && Reports(s.subs, s.log.held, id, upTo)
    ensures Inv(Discharge(s, id, upTo), Steady(w)) && Extends(s.log, Discharge(s, id, upTo).log)
  {
    hide Data, Extends, Discharge, Standing, Reports;
    DischargeKeepsData(s, id, upTo, w);
    DischargeFrame(s, id, upTo);
    DischargeStanding(s, id, upTo);
  }

  /**
   * Telling the mutations about a subscription that is gone or has moved settles,
   * of those whose receipt has come, exactly the ones all of whose named
   * subscriptions are gone or have reached the receipt.
   */
  lemma DischargeSettlesExactly(s: State, id: nat, upTo: Option<nat>, w: World, r: nat)
    requires Inv(s, w) && w.leaving == {id} && Reports(s.subs, s.log.held, id, upTo)
    requires r in s.pending && r in w.promised
    ensures var t := Discharge(s, id, upTo);
            && (r !in t.pending <==>
                  forall k | k in w.promised[r].registered :: Past(t.subs, t.log.held, k, w.promised[r]))
            && (r !in t.pending ==> r in t.log.settled && t.log.settled[r].settlement == Kept(w.promised[r]))
  {
    hide Books, Ledgered, Truthful, Chained, Timers, Flight, Carried, Endings, Admitted, Linked, Standing;
    hide Extends, Discharge, Reports, Past, Waiting;
    var t := Discharge(s, id, upTo);
    DischargeKeeps(s, id, upTo, w);
    if r in t.pending {
      assert PledgeHolds(t.subs, t.log.held, Steady(w), r, t.pending[r]);
      var k :| k in t.pending[r].pledge.value.obligations;
      WaitingIsNotPast(t.subs, t.log.held, k, w.promised[r]);
    } else {
      DischargedConverges(s, id, upTo, r);
      assert ConvergedHolds(t.subs, t.log.held, Steady(w).promised, r, t.log.settled[r]);
    }
  }

  lemma WaitingIsNotPast(subs: map<nat, Subscription>, held: map<nat, seq<Held>>, k: nat, p: Promise)
    requires Waiting(subs, held, k, p)
    ensures !Past(subs, held, k, p) && k in subs && Behind(subs[k], p.version)
  {
  }

  lemma DischargedConverges(s: State, id: nat, upTo: Option<nat>, r: nat)
    requires r in s.pending && r !in Discharge(s, id, upTo).pending
    ensures var settled := Discharge(s, id, upTo).log.settled; r in settled && settled[r].settlement.Converged?
  {
    hide Total;
    assert r in Converging(s.pending, id, upTo);
  }

  /** Anything may be told while nothing is pending on it. */
  lemma ExcuseKeeps(s: State, id: nat, w: World)
    requires Inv(s, w) && w.leaving == {}
    ensures Inv(s, Leaving(w, id))
  {
    hide Books, Ledgered, Truthful, Chained, Converges, Timers, Flight, Carried, Endings, Admitted, Linked, Standing;
    ExcuseConverges(s, id, w);
  }

  lemma ExcuseConverges(s: State, id: nat, w: World)
    requires Converges(s.subs, s.pending, s.log.settled, s.log.held, w) && w.leaving == {}
    ensures Converges(s.subs, s.pending, s.log.settled, s.log.held, Leaving(w, id))
  {
    hide Past, Waiting, WaitingTillNow, ConvergedHolds;
    forall r | r in s.pending
      ensures PledgeHolds(s.subs, s.log.held, Leaving(w, id), r, s.pending[r])
    {
      assert PledgeHolds(s.subs, s.log.held, w, r, s.pending[r]);
      if s.pending[r].pledge.Some? && id in s.pending[r].pledge.value.obligations {
        StillWaiting(s.subs, s.log.held, id, w.promised[r]);
      }
    }
  }

  lemma StillWaiting(subs: map<nat, Subscription>, held: map<nat, seq<Held>>, id: nat, p: Promise)
    requires Waiting(subs, held, id, p)
    ensures WaitingTillNow(subs, held, id, p)
  {
    hide ReachedSince;
    var hs := CursorsOf(held, id);
    if hs != [] { LastMove(hs, MarkOf(p, id), p.version); }
  }

  // ----------------------------------------------------------------- removing

  lemma DropBooks(s: State, id: nat)
    requires id in s.subs && Books(s.config, s.subs, s.pending, s.others, s.items, s.bytes)
    ensures var t := Drop(s, id); Books(t.config, t.subs, t.pending, t.others, t.items, t.bytes)
  {
    hide Books;
    FewerBooks(s.config, s.subs, s.pending, s.others, s.items, s.bytes, id, s.subs - {id});
  }

  lemma FewerBooks(config: Config, subs: map<nat, Subscription>, pending: map<nat, Request>,
                   others: map<nat, nat>, items: int, bytes: int, id: nat, rest: map<nat, Subscription>)
    requires id in subs && rest == subs - {id}
    requires Books(config, subs, pending, others, items, bytes)
    ensures Books(config, rest, pending, others, items - 1, bytes - subs[id].bytes)
  {
    hide Total, RequestBytes, SubBytes, SubSized;
    FewerBytes(subs, id);
    SizeSplit(subs, {id});
  }

  lemma FewerBytes(subs: map<nat, Subscription>, id: nat)
    requires id in subs
    ensures Total(SubBytes(subs - {id})) == Total(SubBytes(subs)) - subs[id].bytes
  {
    hide Total;
    TotalRemove(SubBytes(subs), id);
    assert SubBytes(subs) - {id} == SubBytes(subs - {id});
  }

  lemma DropConverges(s: State, id: nat, w: World)
    requires id in s.subs && Converges(s.subs, s.pending, s.log.settled, s.log.held, w) && w.leaving == {}
    ensures Converges(s.subs - {id}, s.pending, s.log.settled, s.log.held, Leaving(w, id))
  {
    hide ReachedSince;
    forall r | r in s.pending
      ensures PledgeHolds(s.subs - {id}, s.log.held, Leaving(w, id), r, s.pending[r])
    {
      assert PledgeHolds(s.subs, s.log.held, w, r, s.pending[r]);
    }
    forall r | r in s.log.settled
      ensures ConvergedHolds(s.subs - {id}, s.log.held, w.promised, r, s.log.settled[r])
    {
      assert ConvergedHolds(s.subs, s.log.held, w.promised, r, s.log.settled[r]);
    }
  }

  lemma DropStreams(s: State, id: nat, truth: Truth)
    requires Ledgered(s.nextId, s.subs, s.pending, s.log.settled, s.log.issued, s.log.delivered, s.log.held)
    requires Truthful(s.subs, s.log.delivered, truth) && Chained(s.subs, s.log.held)
    ensures Ledgered(s.nextId, s.subs - {id}, s.pending, s.log.settled, s.log.issued, s.log.delivered, s.log.held)
    ensures Truthful(s.subs - {id}, s.log.delivered, truth) && Chained(s.subs - {id}, s.log.held)
  {
    hide Increasing, Anchored;
  }

  lemma DropKeeps(s: State, id: nat, w: World)
    requires Inv(s, w) && w.leaving == {} && id in s.subs
    ensures Inv(Drop(s, id), Leaving(w, id))
  {
    hide Books, Ledgered, Truthful, Chained, Converges, Timers, Flight, Carried, Endings, Admitted;
    DropBooks(s, id);
    DropConverges(s, id, w);
    DropStreams(s, id, w.truth);
    CarriedFewer(s.log.wire, s.socket, s.generation, s.subs, s.pending, s.subs - {id}, s.pending);
  }

  lemma RemoveSubKeeps(s: State, id: nat, announce: bool, w: World)
    requires Inv(s, w) && w.leaving == {}
    ensures Inv(RemoveSub(s, id, announce), w) && Extends(s.log, RemoveSub(s, id, announce).log)
  {
    hide Inv, Extends, Discharge, Send, CanSend;
    ExtendsItself(s.log);
    if id in s.subs {
      var s1 := Drop(s, id);
      DropKeeps(s, id, w);
      var s2 := if announce && CanSend(s1) then Send(s1, Unsubscribe(id)) else s1;
      SendKeeps(s1, Unsubscribe(id), Leaving(w, id));
      SendAfterwards(s1, Unsubscribe(id));
      ExtendsItself(s1.log);
      DischargeKeeps(s2, id, None, Leaving(w, id));
      ExtendsTransitive(s1.log, s2.log, Discharge(s2, id, None).log);
    }
  }

  // ------------------------------------------------------------ moving cursors

  lemma SameItself(subs: map<nat, Subscription>)
    ensures SameCursors(subs, subs)
  {
  }

  lemma TweakCarried(s: State, id: nat, sub: Subscription, w: World)
    requires Data(s, w) && id in s.subs && (sub.sent.None? || sub.sent == s.subs[id].sent)
    ensures Carried(s.log.wire, s.socket, s.generation, s.subs[id := sub], s.pending)
  {
    hide Books, Ledgered, Truthful, Chained, Converges, Timers, Flight, Carried, Endings, Admitted;
    CarriedFewer(s.log.wire, s.socket, s.generation, s.subs, s.pending, s.subs[id := sub], s.pending);
  }

  lemma TweakSubKeeps(s: State, id: nat, sub: Subscription, w: World)
    requires Inv(s, w) && id in s.subs && SameCursor(s.subs[id], sub)
    requires sub.sent.None? || sub.sent == s.subs[id].sent
    ensures Inv(s.(subs := s.subs[id := sub]), w)
  {
    hide Data, SameCursor;
    SameItself(s.subs);
    TweakCarried(s, id, sub, w);
    SubsKeepData(s, s.subs[id := sub], w);
  }

  lemma RequestResetKeeps(s: State, id: nat, w: World)
    requires Inv(s, w) && id in s.subs && s.subs[id].stream.Outcomes?
    ensures Inv(RequestReset(s, id), w) && Extends(s.log, RequestReset(s, id).log)
  {
    hide Inv, Extends, Send, CanSend;
    ExtendsItself(s.log);
    var q := s.subs[id].stream;
    if !q.resetRequested {
      var sub := s.subs[id].(stream := q.(resetRequested := true));
      TweakSubKeeps(s, id, sub, w);
      var s1 := s.(subs := s.subs[id := sub]);
      SendKeeps(s1, if q.cursor.Some? then ResetFrame(id, q.cursor.value) else SubscribeFrame(id, None), w);
    }
  }

  lemma HeldIsReached(subs: map<nat, Subscription>, held: map<nat, seq<Held>>, id: nat)
    requires Chained(subs, held) && id in subs && subs[id].stream.Outcomes? && subs[id].stream.cursor.Some?
    ensures Reports(subs, held, id, Some(subs[id].stream.cursor.value.commitVersion))
  {
    var hs := CursorsOf(held, id);
    assert hs[|hs| - 1].cursor == subs[id].stream.cursor.value;
  }

  lemma InvChained(s: State, w: World)
    requires Inv(s, w)
    ensures Chained(s.subs, s.log.held)
  {
  }

  lemma NotifyKeeps(s: State, id: nat, d: Delivery, w: World)
    requires Inv(s, w) && id < s.nextId && Silent(d)
    requires d.Confirmed? ==> LastOutcome(Delivered(s.log, id)).Some?
    ensures Inv(Notify(s, id, d), w) && Grows(s.log, Notify(s, id, d).log)
    ensures Aside(d) ==> Extends(s.log, Notify(s, id, d).log)
  {
    hide Data, Grows, Extends;
    NotifyKeepsData(s, id, d, w);
  }

  /** A subscription that holds a cursor has delivered an outcome. */
  lemma HeldHasOutcome(s: State, id: nat, w: World)
    requires Inv(s, w) && id in s.subs && s.subs[id].stream.Outcomes? && s.subs[id].stream.cursor.Some?
    ensures LastOutcome(Delivered(s.log, id)).Some?
  {
    hide Books, Ledgered, Chained, Converges, Timers, Flight, Carried, Endings, Admitted, Linked, Standing, Anchored;
    assert TruthAt(w.truth, id, s.subs[id].stream.cursor, LastOutcome(DeliveredTo(s.log.delivered, id)));
  }

  /** Telling the mutations that wait on a subscription about the cursor it already holds. */
  lemma TellHeldKeeps(s: State, id: nat, version: nat, w: World)
    requires Inv(s, w) && w.leaving == {} && id in s.subs && s.subs[id].stream.Outcomes?
    requires s.subs[id].stream.cursor.Some? && s.subs[id].stream.cursor.value.commitVersion == version
    ensures Inv(Discharge(s, id, Some(version)), w) && Extends(s.log, Discharge(s, id, Some(version)).log)
  {
    hide Inv, Extends, Discharge, Reports, Chained;
    InvChained(s, w);
    HeldIsReached(s.subs, s.log.held, id);
    ExcuseKeeps(s, id, w);
    DischargeKeeps(s, id, Some(version), Leaving(w, id));
  }

  lemma TweakAndTellKeeps(s: State, id: nat, sub: Subscription, version: nat, w: World)
    requires Inv(s, w) && w.leaving == {} && id in s.subs && s.subs[id].stream.Outcomes?
    requires s.subs[id].stream.cursor.Some? && s.subs[id].stream.cursor.value.commitVersion == version
    requires SameCursor(s.subs[id], sub) && sub.sent == s.subs[id].sent
    ensures var t := Discharge(s.(subs := s.subs[id := sub]), id, Some(version));
            && Inv(t, w) && Extends(s.log, t.log) && id < t.nextId
            && LastOutcome(Delivered(t.log, id)).Some?
            && t.subs == s.subs[id := sub]
  {
    hide Inv, Extends, Discharge;
    var s1 := s.(subs := s.subs[id := sub]);
    HeldHasOutcome(s, id, w);
    TweakSubKeeps(s, id, sub, w);
    TellHeldKeeps(s1, id, version, w);
    SubFrames(s1, id, w);
    DischargeIds(s1, id, Some(version));
    DischargeFrame(s1, id, Some(version));
  }

  lemma ConfirmHeldKeeps(s: State, id: nat, isReset: bool, version: nat, w: World)
    requires Inv(s, w) && w.leaving == {} && id in s.subs && s.subs[id].stream.Outcomes?
    requires s.subs[id].stream.cursor.Some? && s.subs[id].stream.cursor.value.commitVersion == version
    ensures var t := ConfirmHeld(s, id, isReset, version); Inv(t, w) && Tells(s.log, t)
  {
    hide Inv, Grows, Voiced, Tells, Extends, Discharge, Notify;
    var q := s.subs[id].stream;
    var sub := s.subs[id].(stream := q.(resetRequested := q.resetRequested && !isReset));
    TweakAndTellKeeps(s, id, sub, version, w);
    var s2 := Discharge(s.(subs := s.subs[id := sub]), id, Some(version));
    NotifyKeeps(s2, id, Confirmed, w);
    MutedIsVoiced(s.log, s2);
    ConfirmIsVoiced(s.log, s2, id);
  }

  lemma ConfirmIsVoiced(a: Log, s: State, id: nat)
    requires Extends(a, s.log) && id in s.subs && s.subs[id].stream.Outcomes?
    ensures var t := Notify(s, id, Confirmed); Tells(a, t)
  {
    var t := Notify(s, id, Confirmed);
    forall k, i | |DeliveredTo(a.delivered, k)| <= i < |DeliveredTo(t.log.delivered, k)| &&
                  !Aside(DeliveredTo(t.log.delivered, k)[i])
      ensures k == id
    {
      assert k != id ==> DeliveredTo(t.log.delivered, k) == DeliveredTo(s.log.delivered, k);
    }
  }

  /** The cursor a transition starts from is the one held, and it moves the cursor. */
  ghost predicate Moves(s: State, id: nat, t: Transition) {
    && id in s.subs && s.subs[id].stream.Outcomes?
    && s.subs[id].stream.cursor != Some(t.to)
    && PredecessorMatches(s.subs[id].stream.cursor, t)
    && AcceptedTransition(t)
  }

  ghost function Moved(s: State, id: nat, t: Transition): State
    requires id in s.subs && s.subs[id].stream.Outcomes? && Retainable(s, id, t.to)
  {
    Notify(Retain(s, id, t), id, Callback(t))
  }

  lemma MovedBooks(s: State, id: nat, t: Transition)
    requires Moves(s, id, t) && Retainable(s, id, t.to)
    requires Books(s.config, s.subs, s.pending, s.others, s.items, s.bytes)
    ensures var m := Moved(s, id, t); Books(m.config, m.subs, m.pending, m.others, m.items, m.bytes)
  {
    hide Books, Total, RequestBytes, SubBytes, Callback, PredecessorMatches, AcceptedTransition;
    var m := Moved(s, id, t);
    ReplaceBooks(s.config, s.subs, s.pending, s.others, s.items, s.bytes, id, m.subs[id], m.bytes);
  }

  lemma ReplaceBooks(config: Config, subs: map<nat, Subscription>, pending: map<nat, Request>,
                     others: map<nat, nat>, items: int, bytes: int, id: nat, sub: Subscription, bytes': int)
    requires Books(config, subs, pending, others, items, bytes)
    requires id in subs && SubSized(config, id, sub)
    requires bytes' == bytes - subs[id].bytes + sub.bytes && bytes' <= config.maxBytes
    ensures Books(config, subs[id := sub], pending, others, items, bytes')
  {
    hide Total, RequestBytes, SubSized;
    TotalReplace(SubBytes(subs), id, sub.bytes);
    assert SubBytes(subs[id := sub]) == SubBytes(subs)[id := sub.bytes];
    assert subs[id := sub].Keys == subs.Keys;
  }

  lemma MovedOutcome(ds: seq<Delivery>, id: nat, cursor: Option<Cursor>, t: Transition, truth: Truth)
    requires TruthAt(truth, id, cursor, LastOutcome(ds)) && PredecessorMatches(cursor, t)
    requires AcceptedTransition(t) && HonestTransition(truth, id, t)
    ensures TruthAt(truth, id, Some(t.to), LastOutcome(ds + [Callback(t)])) && MayFollow(ds, Callback(t))
  {
    LastOutcomeAppend(ds, Callback(t));
  }

  lemma TruthOf(subs: map<nat, Subscription>, delivered: map<nat, seq<Delivery>>, id: nat, truth: Truth)
    requires Truthful(subs, delivered, truth) && id in subs && subs[id].stream.Outcomes?
    ensures TruthAt(truth, id, subs[id].stream.cursor, LastOutcome(DeliveredTo(delivered, id)))
    ensures id in delivered ==> Anchored(delivered[id])
  {
  }

  lemma TruthMove(subs: map<nat, Subscription>, delivered: map<nat, seq<Delivery>>, id: nat, sub: Subscription,
                  ds: seq<Delivery>, truth: Truth)
    requires Truthful(subs, delivered, truth) && Anchored(ds) && sub.stream.Outcomes?
    requires TruthAt(truth, id, sub.stream.cursor, LastOutcome(ds))
    ensures Truthful(subs[id := sub], delivered[id := ds], truth)
  {
    hide Anchored, TruthAt;
  }

  lemma MovedDelivery(s: State, id: nat, t: Transition, truth: Truth)
    requires Moves(s, id, t) && HonestTransition(truth, id, t)
    requires Truthful(s.subs, s.log.delivered, truth)
    ensures TruthAt(truth, id, Some(t.to), LastOutcome(Delivered(s.log, id) + [Callback(t)]))
    ensures Anchored(Delivered(s.log, id) + [Callback(t)])
  {
    hide Anchored, TruthAt, MayFollow, Callback, PredecessorMatches, AcceptedTransition, HonestTransition, Truthful;
    TruthOf(s.subs, s.log.delivered, id, truth);
    MovedOutcome(DeliveredTo(s.log.delivered, id), id, s.subs[id].stream.cursor, t, truth);
    StaysAnchored(s.log, id, Callback(t));
  }

  lemma MovedTruth(s: State, id: nat, t: Transition, truth: Truth)
    requires Moves(s, id, t) && Retainable(s, id, t.to) && HonestTransition(truth, id, t)
    requires Truthful(s.subs, s.log.delivered, truth)
    ensures Truthful(Moved(s, id, t).subs, Moved(s, id, t).log.delivered, truth)
  {
    hide Anchored, TruthAt, Callback, PredecessorMatches, AcceptedTransition, HonestTransition, Truthful, Fits;
    MovedDelivery(s, id, t, truth);
    TruthMove(s.subs, s.log.delivered, id, Moved(s, id, t).subs[id], Delivered(s.log, id) + [Callback(t)], truth);
  }

  lemma MovedChain(s: State, id: nat, t: Transition)
    requires Moves(s, id, t) && Retainable(s, id, t.to)
    requires Chained(s.subs, s.log.held)
    ensures Chained(Moved(s, id, t).subs, Moved(s, id, t).log.held)
  {
    hide Chained;
    ChainMove(s.subs, s.log.held, id, Moved(s, id, t).subs[id], t);
  }

  lemma ChainMove(subs: map<nat, Subscription>, held: map<nat, seq<Held>>, id: nat, sub: Subscription, t: Transition)
    requires Chained(subs, held) && id in subs && subs[id].stream.Outcomes?
    requires PredecessorMatches(subs[id].stream.cursor, t) && AcceptedTransition(t)
    requires subs[id].stream.cursor != Some(t.to)
    requires sub.stream == Outcomes(Some(t.to), false)
    ensures Chained(subs[id := sub], held[id := CursorsOf(held, id) + [Held(t.to, t.Reset? || t.Revoked?)]])
  {
    hide Increasing;
    if id !in held { IncreasingNil(); }
    IncreasingAppend(CursorsOf(held, id), Held(t.to, t.Reset? || t.Revoked?));
  }

  lemma IncreasingNil()
    ensures Increasing([])
  {
  }

  lemma IncreasingAppend(hs: seq<Held>, h: Held)
    requires Increasing(hs)
    requires h.restarted || (hs != [] && Advances(hs[|hs| - 1].cursor, h.cursor))
    ensures Increasing(hs + [h])
  {
  }

  /** Longer histories reach at least as far. */
  lemma ReachedGrows(s: State, m: State, id: nat, k: nat, p: Promise)
    requires m.subs.Keys == s.subs.Keys
    requires forall j | j != id :: CursorsOf(m.log.held, j) == CursorsOf(s.log.held, j)
    requires CursorsOf(s.log.held, id) <= CursorsOf(m.log.held, id)
    requires Past(s.subs, s.log.held, k, p)
    ensures Past(m.subs, m.log.held, k, p)
  {
    if k in s.subs {
      var hs := CursorsOf(s.log.held, k);
      var i :| 0 <= i < |hs| && MarkOf(p, k) <= i + 1 && hs[i].cursor.commitVersion >= p.version;
      assert CursorsOf(m.log.held, k)[i] == hs[i];
    }
  }

  /** A move leaves the moved subscription to be told about and every other one as it was. */
  lemma MovedHistory(s: State, id: nat, t: Transition)
    requires Moves(s, id, t) && Retainable(s, id, t.to)
    ensures var m := Moved(s, id, t);
            && m.subs.Keys == s.subs.Keys
            && (forall k | k in s.subs && k != id :: m.subs[k] == s.subs[k])
            && (forall k | k != id :: CursorsOf(m.log.held, k) == CursorsOf(s.log.held, k))
            && CursorsOf(s.log.held, id) <= CursorsOf(m.log.held, id)
            && Earlier(CursorsOf(m.log.held, id)) == CursorsOf(s.log.held, id)
  {
    hide Retainable, Callback;
    var hs, h := CursorsOf(s.log.held, id), Held(t.to, t.Reset? || t.Revoked?);
    assert (hs + [h])[..|hs|] == hs;
  }

  lemma MovedPledge(s: State, m: State, id: nat, n: nat, w: World)
    requires m.subs.Keys == s.subs.Keys && (forall k | k in s.subs && k != id :: m.subs[k] == s.subs[k])
    requires forall k | k != id :: CursorsOf(m.log.held, k) == CursorsOf(s.log.held, k)
    requires CursorsOf(s.log.held, id) <= CursorsOf(m.log.held, id)
    requires Earlier(CursorsOf(m.log.held, id)) == CursorsOf(s.log.held, id)
    requires n in s.pending && PledgeHolds(s.subs, s.log.held, w, n, s.pending[n]) && w.leaving == {}
    ensures PledgeHolds(m.subs, m.log.held, Leaving(w, id), n, s.pending[n])
  {
    hide ReachedSince, Behind, CursorsOf, Past;
    if s.pending[n].pledge.Some? {
      var p := s.pending[n].pledge.value;
      forall k | k in p.registered - p.obligations
        ensures Past(m.subs, m.log.held, k, w.promised[n])
      {
        ReachedGrows(s, m, id, k, w.promised[n]);
      }
      forall k | k in p.registered
        ensures |CursorsOf(s.log.held, k)| <= |CursorsOf(m.log.held, k)|
      {
        if k != id { assert CursorsOf(m.log.held, k) == CursorsOf(s.log.held, k); }
      }
    }
  }

  lemma MovedConverges(s: State, id: nat, t: Transition, w: World)
    requires Moves(s, id, t) && Retainable(s, id, t.to)
    requires Converges(s.subs, s.pending, s.log.settled, s.log.held, w) && w.leaving == {}
    ensures Converges(Moved(s, id, t).subs, s.pending, s.log.settled, Moved(s, id, t).log.held, Leaving(w, id))
  {
    hide Past, Retainable, PledgeHolds, Moved, CursorsOf;
    var m := Moved(s, id, t);
    MovedHistory(s, id, t);
    forall r | r in s.pending
      ensures PledgeHolds(m.subs, m.log.held, Leaving(w, id), r, s.pending[r])
    {
      MovedPledge(s, m, id, r, w);
    }
    forall r | r in s.log.settled
      ensures ConvergedHolds(m.subs, m.log.held, w.promised, r, s.log.settled[r])
    {
      assert ConvergedHolds(s.subs, s.log.held, w.promised, r, s.log.settled[r]);
      if s.log.settled[r].settlement.Converged? {
        forall k | k in w.promised[r].registered
          ensures Past(m.subs, m.log.held, k, w.promised[r])
        {
          ReachedGrows(s, m, id, k, w.promised[r]);
        }
      }
    }
  }

  lemma MovedLedger(s: State, id: nat, t: Transition)
    requires Moves(s, id, t) && Retainable(s, id, t.to)
    requires Ledgered(s.nextId, s.subs, s.pending, s.log.settled, s.log.issued, s.log.delivered, s.log.held)
    ensures var m := Moved(s, id, t);
            Ledgered(m.nextId, m.subs, m.pending, m.log.settled, m.log.issued, m.log.delivered, m.log.held)
  {
    assert Moved(s, id, t).subs.Keys == s.subs.Keys;
  }

  lemma MovedFrame(s: State, id: nat, t: Transition)
    requires Moves(s, id, t) && Retainable(s, id, t.to)
    ensures var m := Moved(s, id, t);
            && m == s.(subs := m.subs, bytes := m.bytes,
                       log := s.log.(held := m.log.held, delivered := m.log.delivered))
            && id in m.subs && m.subs[id].stream == Outcomes(Some(t.to), false)
            && m.subs.Keys == s.subs.Keys
            && Tells(s.log, m)
  {
  }

  lemma MovedKeeps(s: State, id: nat, t: Transition, w: World)
    requires Inv(s, w) && w.leaving == {}
    requires Moves(s, id, t) && Retainable(s, id, t.to) && HonestTransition(w.truth, id, t)
    ensures Inv(Moved(s, id, t), Leaving(w, id)) && Grows(s.log, Moved(s, id, t).log)
  {
    hide Books, Ledgered, Truthful, Chained, Converges, Timers, Flight, Carried, Endings, Admitted, Grows, Voiced,
         Tells;
    hide Moved, Moves, Retainable, HonestTransition;
    MovedFrame(s, id, t);
    MovedBooks(s, id, t);
    MovedTruth(s, id, t, w.truth);
    MovedChain(s, id, t);
    MovedConverges(s, id, t, w);
    MovedLedger(s, id, t);
    MovedCarried(s, id, t);
  }

  lemma MovedCarried(s: State, id: nat, t: Transition)
    requires Moves(s, id, t) && Retainable(s, id, t.to)
    requires Carried(s.log.wire, s.socket, s.generation, s.subs, s.pending)
    ensures Carried(s.log.wire, s.socket, s.generation, Moved(s, id, t).subs, s.pending)
  {
    hide Carried, Retainable, Callback, PredecessorMatches, AcceptedTransition;
    CarriedFewer(s.log.wire, s.socket, s.generation, s.subs, s.pending, Moved(s, id, t).subs, s.pending);
  }

  lemma AdvanceKeeps(s: State, id: nat, t: Transition, w: World)
    requires Inv(s, w) && w.leaving == {}
    requires Moves(s, id, t) && HonestTransition(w.truth, id, t)
    ensures var u := Advance(s, id, t); Inv(u, w) && Tells(s.log, u)
    ensures !Retainable(s, id, t.to) ==> Extends(s.log, Advance(s, id, t).log)
  {
    hide Inv, Grows, Voiced, Tells, Extends, Discharge, Notify, Retain, RemoveSub;
    hide Retainable, HonestTransition, Reports, Chained, Fits;
    if !Retainable(s, id, t.to) {
      var tooLarge := !Fits(s.config, SubscribeFrame(id, Some(t.to)));
      var problem := Error(Overloaded, !tooLarge, if tooLarge then None else Some(s.config.baseDelay));
      SubFrames(s, id, w);
      NotifyKeeps(s, id, Trouble(problem), w);
      var s1 := Notify(s, id, Trouble(problem));
      RemoveSubKeeps(s1, id, true, w);
      ExtendsTransitive(s.log, s1.log, RemoveSub(s1, id, true).log);
      MutedIsVoiced(s.log, RemoveSub(s1, id, true));
    } else {
      var m := Moved(s, id, t);
      MovedKeeps(s, id, t, w);
      MovedFrame(s, id, t);
      InvChained(m, Leaving(w, id));
      HeldIsReached(m.subs, m.log.held, id);
      DischargeKeeps(m, id, Some(t.to.commitVersion), Leaving(w, id));
      DischargeFrame(m, id, Some(t.to.commitVersion));
      StillVoiced(s.log, m, Discharge(m, id, Some(t.to.commitVersion)));
    }
  }

  lemma InvFailed(s: State, code: Code, w: World)
    requires Inv(s, w)
    ensures Inv(Fail(s, code), w) && Extends(s.log, Fail(s, code).log)
  {
    hide Data, Extends, Fail;
    FailKeeps(s, code, w);
  }

  lemma QueryTransitionKeeps(s: State, id: nat, t: Transition, w: World)
    requires Inv(s, w) && w.leaving == {} && id in s.subs && s.subs[id].stream.Outcomes?
    requires AcceptedTransition(t) && HonestTransition(w.truth, id, t)
    ensures var q := s.subs[id].stream;
            var s' := if q.cursor == Some(t.to) then ConfirmHeld(s, id, t.Reset?, t.to.commitVersion)
                      else if q.resetRequested && !t.Reset? then s
                      else if !PredecessorMatches(q.cursor, t) then RequestReset(s, id)
                      else Advance(s, id, t);
            Inv(s', w) && Tells(s.log, s')
  {
    hide Inv, Grows, Voiced, Tells, Extends, ConfirmHeld, RequestReset, Advance;
    hide HonestTransition, PredecessorMatches, AcceptedTransition;
    ExtendsItself(s.log);
    MutedIsVoiced(s.log, s);
    var q := s.subs[id].stream;
    if q.cursor == Some(t.to) {
      ConfirmHeldKeeps(s, id, t.Reset?, t.to.commitVersion, w);
    } else if !PredecessorMatches(q.cursor, t) {
      RequestResetKeeps(s, id, w);
      MutedIsVoiced(s.log, RequestReset(s, id));
    } else {
      AdvanceKeeps(s, id, t, w);
    }
  }

  lemma ApplyTransitionKeeps(s: State, id: nat, t: Transition, w: World)
    requires Inv(s, w) && w.leaving == {}
    requires AcceptedTransition(t) && HonestTransition(w.truth, id, t)
    ensures var u := ApplyTransition(s, id, t); Inv(u, w) && Tells(s.log, u)
  {
    hide Inv, Grows, Voiced, Tells, Extends, Fail, ConfirmHeld, RequestReset, Advance;
    hide HonestTransition, PredecessorMatches, AcceptedTransition;
    ExtendsItself(s.log);
    MutedIsVoiced(s.log, s);
    if id in s.subs {
      if s.subs[id].stream.Events? {
        InvFailed(s, Malformed, w);
        MutedIsVoiced(s.log, Fail(s, Malformed));
      } else {
        TweakSubKeeps(s, id, s.subs[id].(waiting := false), w);
        QueryTransitionKeeps(SettleRetry(s, id), id, t, w);
      }
    }
  }

  /** Not a mere confirmation of the cursor. */
  predicate BearsOutcome(t: Transition) {
    !t.Checkpoint? && !t.Resume?
  }

  /** What a caller can check: the transition follows on the cursor held, and its own cursor can be held. */
  predicate Taken(s: State, id: nat, t: Transition)
    requires id in s.subs && s.subs[id].stream.Outcomes?
  {
    var q := s.subs[id].stream;
    && q.cursor != Some(t.to)
    && (q.resetRequested ==> t.Reset?)
    && PredecessorMatches(q.cursor, t)
    && Retainable(s, id, t.to)
  }

  /** What a transition adds to the callbacks: its own, if it is taken, and otherwise no outcome. */
  ghost predicate ReportsAsTaken(before: seq<Delivery>, after: seq<Delivery>, t: Transition, taken: bool) {
    && (taken ==> after == before + [Callback(t)])
    && (!taken ==> before <= after && forall i | |before| <= i < |after| :: Aside(after[i]) || after[i].Confirmed?)
  }

  lemma MutedReports(a: Log, b: Log, id: nat, t: Transition)
    requires Extends(a, b)
    ensures ReportsAsTaken(Delivered(a, id), Delivered(b, id), t, false)
  {
  }

  lemma AdvanceReports(s: State, id: nat, t: Transition, w: World)
    requires Inv(s, w) && w.leaving == {} && Moves(s, id, t) && HonestTransition(w.truth, id, t)
    ensures ReportsAsTaken(Delivered(s.log, id), Delivered(Advance(s, id, t).log, id), t, Retainable(s, id, t.to))
  {
    hide Inv, Grows, Voiced, Tells, Extends, Discharge, Retainable, HonestTransition, Callback, RemoveSub;
    hide PredecessorMatches, AcceptedTransition;
    if Retainable(s, id, t.to) {
      DischargeIds(Moved(s, id, t), id, Some(t.to.commitVersion));
    } else {
      AdvanceKeeps(s, id, t, w);
      MutedReports(s.log, Advance(s, id, t).log, id, t);
    }
  }

  lemma ConfirmReports(s: State, id: nat, isReset: bool, version: nat, t: Transition)
    requires id in s.subs && s.subs[id].stream.Outcomes?
    ensures ReportsAsTaken(Delivered(s.log, id), Delivered(ConfirmHeld(s, id, isReset, version).log, id), t, false)
  {
    hide ConfirmHeld;
    ConfirmDelivers(s, id, isReset, version);
  }

  lemma ConfirmDelivers(s: State, id: nat, isReset: bool, version: nat)
    requires id in s.subs && s.subs[id].stream.Outcomes?
    ensures var before, after := Delivered(s.log, id), Delivered(ConfirmHeld(s, id, isReset, version).log, id);
            after == if s.subs[id].stream.resetRequested && !isReset then before else before + [Confirmed]
  {
    hide Discharge, Notify, Delivered, Demand;
    var s1 := Demand(s, id, s.subs[id].stream.resetRequested && !isReset);
    DemandDelivers(s, id, s.subs[id].stream.resetRequested && !isReset);
    DischargeDelivers(s1, id, Some(version));
    NotifyDelivers(Discharge(s1, id, Some(version)), id, Confirmed);
  }

  lemma DemandDelivers(s: State, id: nat, asking: bool)
    requires id in s.subs && s.subs[id].stream.Outcomes?
    ensures Demand(s, id, asking).log == s.log
  {
  }

  lemma NotifyDelivers(s: State, id: nat, d: Delivery)
    ensures Delivered(Notify(s, id, d).log, id) == Delivered(s.log, id) + [d]
  {
  }

  lemma DischargeDelivers(s: State, id: nat, upTo: Option<nat>)
    ensures Delivered(Discharge(s, id, upTo).log, id) == Delivered(s.log, id)
  {
    hide Discharge;
    DischargeIds(s, id, upTo);
  }

  lemma TransitionReports(s: State, id: nat, t: Transition, w: World)
    requires Inv(s, w) && w.leaving == {} && id in s.subs && s.subs[id].stream.Outcomes?
    requires AcceptedTransition(t) && HonestTransition(w.truth, id, t)
    ensures ReportsAsTaken(Delivered(s.log, id), Delivered(ApplyTransition(s, id, t).log, id), t, Taken(s, id, t))
  {
    hide Inv, Extends, ConfirmHeld, RequestReset, Advance, ReportsAsTaken;
    hide HonestTransition, PredecessorMatches, AcceptedTransition, SettleRetry;
    SettleRetryKeeps(s, id, w);
    SameRoom(s, id, t.to);
    ExtendsItself(s.log);
    MutedReports(s.log, s.log, id, t);
    var s1, q := SettleRetry(s, id), s.subs[id].stream;
    if q.cursor == Some(t.to) {
      ConfirmReports(s1, id, t.Reset?, t.to.commitVersion, t);
    } else if !PredecessorMatches(q.cursor, t) {
      RequestResetKeeps(s1, id, w);
      MutedReports(s.log, RequestReset(s1, id).log, id, t);
    } else {
      AdvanceReports(s1, id, t, w);
    }
  }

  lemma SameRoom(s: State, id: nat, to: Cursor)
    requires id in s.subs
    ensures id in SettleRetry(s, id).subs && (Retainable(SettleRetry(s, id), id, to) <==> Retainable(s, id, to))
  {
    hide Fits;
  }

  /** A transition with an outcome reports it if and only if it is taken. */
  lemma ReportedExactlyWhen(s: State, id: nat, t: Transition, w: World)
    requires Inv(s, w) && w.leaving == {} && id in s.subs && s.subs[id].stream.Outcomes?
    requires AcceptedTransition(t) && HonestTransition(w.truth, id, t) && BearsOutcome(t)
    ensures var before, after := Delivered(s.log, id), Delivered(ApplyTransition(s, id, t).log, id);
            && (after == before + [Callback(t)] <==> Taken(s, id, t))
            && (!Taken(s, id, t) ==>
                  before <= after && forall i | |before| <= i < |after| :: Aside(after[i]) || after[i].Confirmed?)
  {
    hide Inv, ApplyTransition, Taken, HonestTransition, AcceptedTransition;
    TransitionReports(s, id, t, w);
    var before, after := Delivered(s.log, id), Delivered(ApplyTransition(s, id, t).log, id);
    if !Taken(s, id, t) && |before| < |after| { assert Aside(after[|before|]) || after[|before|].Confirmed?; }
  }

  lemma HearKeeps(s: State, id: nat, at: EventCursor, e: LiveEvent, w: World)
    requires Inv(s, w) && id in s.subs && s.subs[id].stream.Events?
    ensures Inv(Hear(s, id, at, e), w) && Extends(s.log, Hear(s, id, at, e).log)
  {
    hide Inv, Extends, Notify;
    var moved := s.subs[id].(stream := Events(Some(at)));
    TweakSubKeeps(s, id, moved, w);
    SubFrames(s.(subs := s.subs[id := moved]), id, w);
    NotifyKeeps(s.(subs := s.subs[id := moved]), id, Happened(e), w);
  }

  lemma SettleRetryKeeps(s: State, id: nat, w: World)
    requires Inv(s, w) && id in s.subs
    ensures Inv(SettleRetry(s, id), w) && SettleRetry(s, id).log == s.log
    ensures id in SettleRetry(s, id).subs && SettleRetry(s, id).subs[id].stream == s.subs[id].stream
  {
    hide Inv;
    TweakSubKeeps(s, id, s.subs[id].(waiting := false), w);
  }

  lemma LiveEventKeeps(s: State, id: nat, e: LiveEvent, w: World)
    requires Inv(s, w) && id in s.subs && s.subs[id].stream.Events?
    ensures Inv(ApplyLive(s, id, e), w) && Extends(s.log, ApplyLive(s, id, e).log)
  {
    hide Inv, Extends, Hear, Heard, SettleRetry;
    ExtendsItself(s.log);
    SettleRetryKeeps(s, id, w);
    var s1 := SettleRetry(s, id);
    HearKeeps(s1, id, e.at, Heard(s1.subs[id].stream.at, e), w);
  }

  lemma ApplyLiveKeeps(s: State, id: nat, e: LiveEvent, w: World)
    requires Inv(s, w)
    ensures Inv(ApplyLive(s, id, e), w) && Extends(s.log, ApplyLive(s, id, e).log)
  {
    hide Inv, Extends, Fail, Hear, Heard;
    ExtendsItself(s.log);
    if id in s.subs {
      if s.subs[id].stream.Outcomes? {
        InvFailed(s, Malformed, w);
      } else {
        LiveEventKeeps(s, id, e, w);
      }
    }
  }
}
