/** The building blocks of the session keep the invariants. */
module SessionAtoms {
  import opened Basics
  import opened Protocol
  import opened SessionSpec
  import opened SessionInvariants

  lemma LastOutcomeAppend(ds: seq<Delivery>, d: Delivery)
    ensures LastOutcome(ds + [d]) ==
      match d
      case Fresh(value) => Some(OutcomeValue(value))
      case Refused(error) => Some(OutcomeError(error))
      case Denied(denial) => Some(OutcomeDenied(denial))
      case _ => LastOutcome(ds)
  {
    assert (ds + [d])[..|ds|] == ds;
  }

  lemma TransmissionsAppend(wire: seq<Transmission>, t: Transmission)
    ensures forall id :: Transmissions(wire + [t], id) ==
                         (if t.frame.Call? && t.frame.id == id
                          then Transmissions(wire, id) + [t.generation] else Transmissions(wire, id))
  {
    assert (wire + [t])[..|wire|] == wire;
  }

  /** Bookkeeping on a subscription that leaves its cursor, frame and size alone. */
  predicate SameCursor(a: Subscription, b: Subscription) {
    && a.frame == b.frame && a.bytes == b.bytes
    && (a.stream.Outcomes? <==> b.stream.Outcomes?)
    && (a.stream.Outcomes? ==> a.stream.cursor == b.stream.cursor)
  }

  ghost predicate SameCursors(a: map<nat, Subscription>, b: map<nat, Subscription>) {
    && a.Keys == b.Keys
    && forall id | id in a :: SameCursor(a[id], b[id])
  }

  lemma SubsKeepBooks(config: Config, a: map<nat, Subscription>, b: map<nat, Subscription>,
                      pending: map<nat, Request>, others: map<nat, nat>, items: int, bytes: int)
    requires SameCursors(a, b) && Books(config, a, pending, others, items, bytes)
    ensures Books(config, b, pending, others, items, bytes)
  {
    hide Total, SubBytes, RequestBytes, SubSized, SameCursor;
    SameBytes(a, b);
    assert |a.Keys| == |b.Keys|;
    forall id | id in b
      ensures SubSized(config, id, b[id])
    {
      SameSize(config, id, a[id], b[id]);
    }
  }

  lemma SameBytes(a: map<nat, Subscription>, b: map<nat, Subscription>)
    requires SameCursors(a, b)
    ensures SubBytes(a) == SubBytes(b)
  {
  }

  lemma SameSize(config: Config, id: nat, a: Subscription, b: Subscription)
    requires SameCursor(a, b) && SubSized(config, id, a)
    ensures SubSized(config, id, b)
  {
  }

  lemma SubsKeepPledge(a: map<nat, Subscription>, b: map<nat, Subscription>, held: map<nat, seq<Held>>,
                       w: World, id: nat, r: Request)
    requires SameCursors(a, b) && PledgeHolds(a, held, w, id, r)
    ensures PledgeHolds(b, held, w, id, r)
  {
    hide ReachedSince;
  }

  lemma SubsKeepConverges(a: map<nat, Subscription>, b: map<nat, Subscription>,
                          pending: map<nat, Request>, settled: map<nat, Settled>, held: map<nat, seq<Held>>,
                          w: World)
    requires SameCursors(a, b) && Converges(a, pending, settled, held, w)
    ensures Converges(b, pending, settled, held, w)
  {
    hide PledgeHolds, ReachedSince;
    forall id | id in pending
      ensures PledgeHolds(b, held, w, id, pending[id])
    {
      SubsKeepPledge(a, b, held, w, id, pending[id]);
    }
  }

  lemma SubsKeepStreams(a: map<nat, Subscription>, b: map<nat, Subscription>,
                        delivered: map<nat, seq<Delivery>>, held: map<nat, seq<Held>>, truth: Truth)
    requires SameCursors(a, b) && Truthful(a, delivered, truth) && Chained(a, held)
    ensures Truthful(b, delivered, truth) && Chained(b, held)
  {
    hide Increasing, Anchored;
  }

  // ----------------------------------------------------------- what is carried

  /** No request is there that was not, and none is marked as put somewhere else. */
  ghost predicate RequestsFrom(before: map<nat, Request>, after: map<nat, Request>) {
    forall id | id in after ::
      id in before && after[id].kind == before[id].kind && (after[id].sent.None? || after[id].sent == before[id].sent)
  }

  ghost predicate SubsFrom(before: map<nat, Subscription>, after: map<nat, Subscription>) {
    forall id | id in after :: id in before && (after[id].sent.None? || after[id].sent == before[id].sent)
  }

  lemma CarriedFewer(wire: seq<Transmission>, socket: bool, generation: nat,
                     subs: map<nat, Subscription>, pending: map<nat, Request>,
                     subs': map<nat, Subscription>, pending': map<nat, Request>)
    requires Carried(wire, socket, generation, subs, pending)
    requires SubsFrom(subs, subs') && RequestsFrom(pending, pending')
    ensures Carried(wire, socket, generation, subs', pending')
  {
    forall id | id in pending'
      ensures RequestCarried(wire, socket, generation, id, pending'[id])
    {
      assert RequestCarried(wire, socket, generation, id, pending[id]);
    }
    forall id | id in subs'
      ensures SubCarried(wire, socket, generation, id, subs'[id])
    {
      assert SubCarried(wire, socket, generation, id, subs[id]);
    }
  }

  lemma CarriedOn(wire: seq<Transmission>, socket: bool, generation: nat,
                  subs: map<nat, Subscription>, pending: map<nat, Request>,
                  wire': seq<Transmission>, socket': bool, generation': nat)
    requires Carried(wire, socket, generation, subs, pending)
    requires wire <= wire' && generation <= generation' && (socket' && generation' == generation ==> socket)
    ensures Carried(wire', socket', generation', subs, pending)
  {
    forall id | id in pending
      ensures RequestCarried(wire', socket', generation', id, pending[id])
    {
      assert RequestCarried(wire, socket, generation, id, pending[id]);
    }
    forall id | id in subs
      ensures SubCarried(wire', socket', generation', id, subs[id])
    {
      assert SubCarried(wire, socket, generation, id, subs[id]);
      hide Carried;
      if i :| 0 <= i < |wire| && wire[i].generation == generation &&
              wire[i].frame.SubscribeFrame? && wire[i].frame.id == id {
        assert wire'[i] == wire[i];
      }
    }
  }

  lemma SubsKeepData(s: State, subs: map<nat, Subscription>, w: World)
    requires Data(s, w) && SameCursors(s.subs, subs)
    requires Carried(s.log.wire, s.socket, s.generation, subs, s.pending)
    ensures Data(s.(subs := subs), w)
  {
    hide Books, Truthful, Chained, Converges, Timers, Flight, Carried, Endings, Admitted;
    SubsKeepBooks(s.config, s.subs, subs, s.pending, s.others, s.items, s.bytes);
    SubsKeepStreams(s.subs, subs, s.log.delivered, s.log.held, w.truth);
    SubsKeepConverges(s.subs, subs, s.pending, s.log.settled, s.log.held, w);
  }

  /** A callback that reports no outcome. */
  predicate Silent(d: Delivery) {
    !d.Fresh? && !d.Refused? && !d.Denied?
  }

  lemma NotifyKeepsTruth(s: State, id: nat, d: Delivery, truth: Truth)
    requires Silent(d) && Truthful(s.subs, s.log.delivered, truth)
    requires d.Confirmed? ==> LastOutcome(Delivered(s.log, id)).Some?
    ensures Truthful(s.subs, Notify(s, id, d).log.delivered, truth)
  {
    hide Anchored;
    LastOutcomeAppend(Delivered(s.log, id), d);
    StaysAnchored(s.log, id, d);
  }

  lemma StaysAnchored(log: Log, id: nat, d: Delivery)
    requires id in log.delivered ==> Anchored(log.delivered[id])
    requires MayFollow(Delivered(log, id), d)
    ensures Anchored(Delivered(log, id) + [d])
  {
    hide MayFollow;
    var ds := Delivered(log, id);
    forall i | 0 <= i < |ds| + 1
      ensures MayFollow((ds + [d])[..i], (ds + [d])[i])
    {
      assert (ds + [d])[..i] == ds[..i];
      if i == |ds| { assert ds[..i] == ds; }
    }
  }

  lemma NotifyKeepsData(s: State, id: nat, d: Delivery, w: World)
    requires Data(s, w) && id < s.nextId && Silent(d)
    requires d.Confirmed? ==> LastOutcome(Delivered(s.log, id)).Some?
    ensures Data(Notify(s, id, d), w) && Grows(s.log, Notify(s, id, d).log)
    ensures Aside(d) ==> Extends(s.log, Notify(s, id, d).log)
  {
    hide Books, Truthful, Chained, Converges, Timers, Flight, Carried, Endings, Admitted;
    NotifyKeepsTruth(s, id, d, w.truth);
  }

  lemma NotifyAllKeepsTruth(s: State, d: Delivery, truth: Truth)
    requires Silent(d) && !d.Confirmed? && Truthful(s.subs, s.log.delivered, truth)
    ensures Truthful(s.subs, NotifyAll(s, d).log.delivered, truth)
  {
    hide Anchored, TruthAt, NotifyAll, LastOutcome;
    forall id | id in s.subs
      ensures LastOutcome(DeliveredTo(s.log.delivered, id) + [d]) == LastOutcome(DeliveredTo(s.log.delivered, id))
      ensures Anchored(DeliveredTo(s.log.delivered, id) + [d])
    {
      LastOutcomeAppend(Delivered(s.log, id), d);
      StaysAnchored(s.log, id, d);
    }
    AllAreTold(s, d);
    AllToldTruth(s.subs, s.log.delivered, NotifyAll(s, d).log.delivered, d, truth);
  }

  lemma AllAreTold(s: State, d: Delivery)
    ensures var before, after := s.log.delivered, NotifyAll(s, d).log.delivered;
            && (forall id | id in after :: id in s.subs || (id in before && after[id] == before[id]))
            && (forall id | id in s.subs :: id in after && after[id] == DeliveredTo(before, id) + [d])
  {
  }

  lemma AllToldTruth(subs: map<nat, Subscription>, before: map<nat, seq<Delivery>>, after: map<nat, seq<Delivery>>,
                     d: Delivery, truth: Truth)
    requires Truthful(subs, before, truth)
    requires forall id | id in after :: id in subs || (id in before && after[id] == before[id])
    requires forall id | id in subs :: id in after && after[id] == DeliveredTo(before, id) + [d]
    requires forall id | id in subs ::
               LastOutcome(DeliveredTo(before, id) + [d]) == LastOutcome(DeliveredTo(before, id))
    requires forall id | id in subs :: Anchored(DeliveredTo(before, id) + [d])
    ensures Truthful(subs, after, truth)
  {
    hide Anchored, TruthAt;
    forall id | id in subs && subs[id].stream.Outcomes?
      ensures TruthAt(truth, id, subs[id].stream.cursor, LastOutcome(DeliveredTo(after, id)))
    {
      assert TruthAt(truth, id, subs[id].stream.cursor, LastOutcome(DeliveredTo(before, id)));
      assert DeliveredTo(after, id) == DeliveredTo(before, id) + [d];
    }
  }

  lemma NotifyAllKeepsData(s: State, d: Delivery, w: World)
    requires Data(s, w) && Silent(d) && !d.Confirmed?
    ensures Data(NotifyAll(s, d), w) && Extends(s.log, NotifyAll(s, d).log)
  {
    hide Books, Truthful, Chained, Converges, Timers, Flight, Carried, Endings, Admitted;
    NotifyAllKeepsTruth(s, d, w.truth);
  }

  // ---------------------------------------------------------------- settling

  /** What an ending must satisfy for the record to stay honest. */
  ghost predicate EndingAllowed(s: State, id: nat, how: Settlement, w: World)
    requires id in s.pending
  {
    && EndingHonest(s.log.wire, id, Settled(s.pending[id].kind, how))
    && ConvergedHolds(s.subs, s.log.held, w.promised, id, Settled(s.pending[id].kind, how))
    && (how.Converged? ==> forall k | k in how.registered :: k < s.nextId)
  }

  lemma SettleBytes(pending: map<nat, Request>, done: set<nat>)
    requires done <= pending.Keys
    ensures Total(RequestBytes(pending - done)) == Total(RequestBytes(pending)) - Total(At(RequestBytes(pending), done))
    ensures |pending - done| == |pending| - |done|
  {
    hide Total;
    TotalSplit(RequestBytes(pending), done);
    SizeSplit(pending, done);
    assert RequestBytes(pending) - done == RequestBytes(pending - done);
  }

  lemma SettleBooks(config: Config, subs: map<nat, Subscription>, pending: map<nat, Request>,
                    others: map<nat, nat>, items: int, bytes: int, done: set<nat>, items': int, bytes': int)
    requires done <= pending.Keys
    requires Books(config, subs, pending, others, items, bytes)
    requires items' == items - |done| && bytes' == bytes - Total(At(RequestBytes(pending), done))
    ensures Books(config, subs, pending - done, others, items', bytes')
  {
    hide Total, RequestBytes, SubBytes, At, SubSized;
    SettleBytes(pending, done);
  }

  lemma FewerPending(s: State, done: set<nat>)
    requires Timers(s.config, s.env.now, s.arms, s.pending)
    requires Flight(s.log.wire, s.socket && s.ready, s.generation, s.attempt, s.pending)
    ensures Timers(s.config, s.env.now, s.arms, s.pending - done)
    ensures Flight(s.log.wire, s.socket && s.ready, s.generation, s.attempt, s.pending - done)
  {
    hide RequestFlight, RequestTimer;
  }

  /** What is known of all but some requests is the same. */
  ghost predicate Agree(w: World, v: World, done: set<nat>) {
    && v == w.(promised := v.promised)
    && (forall id | id !in done ::
          && (id in w.promised <==> id in v.promised)
          && (id in w.promised ==> v.promised[id] == w.promised[id]))
  }

  lemma FewerCarried(s: State, done: set<nat>)
    requires Carried(s.log.wire, s.socket, s.generation, s.subs, s.pending)
    ensures Carried(s.log.wire, s.socket, s.generation, s.subs, s.pending - done)
  {
    hide Carried;
    CarriedFewer(s.log.wire, s.socket, s.generation, s.subs, s.pending, s.subs, s.pending - done);
  }

  lemma SettleRecord(s: State, done: map<nat, Settlement>, w: World, v: World)
    requires Agree(w, v, done.Keys) && done.Keys <= s.pending.Keys
    requires forall id | id in done :: EndingAllowed(s, id, done[id], v)
    requires Ledgered(s.nextId, s.subs, s.pending, s.log.settled, s.log.issued, s.log.delivered, s.log.held)
    requires Converges(s.subs, s.pending, s.log.settled, s.log.held, w)
    requires Endings(s.log.wire, s.log.settled, s.log.issued)
    ensures var settled := s.log.settled + Ended(s.pending, done);
            && Converges(s.subs, s.pending - done.Keys, settled, s.log.held, v)
            && Endings(s.log.wire, settled, s.log.issued)
  {
    hide WaitsFor, Past, EndingHonest;
    var settled := s.log.settled + Ended(s.pending, done);
    forall id | id in s.pending - done.Keys
      ensures PledgeHolds(s.subs, s.log.held, v, id, s.pending[id])
    {
      assert PledgeHolds(s.subs, s.log.held, w, id, s.pending[id]);
    }
    forall id | id in settled
      ensures ConvergedHolds(s.subs, s.log.held, v.promised, id, settled[id])
    {
      if id in s.log.settled { assert ConvergedHolds(s.subs, s.log.held, w.promised, id, s.log.settled[id]); }
    }
  }

  lemma SettleLedger(s: State, done: map<nat, Settlement>, v: World)
    requires done.Keys <= s.pending.Keys
    requires forall id | id in done :: EndingAllowed(s, id, done[id], v)
    requires Ledgered(s.nextId, s.subs, s.pending, s.log.settled, s.log.issued, s.log.delivered, s.log.held)
    ensures Ledgered(s.nextId, s.subs, s.pending - done.Keys, s.log.settled + Ended(s.pending, done),
                     s.log.issued, s.log.delivered, s.log.held)
  {
  }

  lemma SettleExtends(s: State, done: map<nat, Settlement>)
    requires done.Keys <= s.pending.Keys
    requires Ledgered(s.nextId, s.subs, s.pending, s.log.settled, s.log.issued, s.log.delivered, s.log.held)
    ensures Resolves(s.log, Settle(s, done).log)
    ensures (forall id | id in done :: !FromServer(done[id])) ==> Extends(s.log, Settle(s, done).log)
  {
    hide Total, At, RequestBytes;
  }

  lemma SettleKeepsData(s: State, done: map<nat, Settlement>, w: World, v: World)
    requires Data(s, w) && Agree(w, v, done.Keys) && done.Keys <= s.pending.Keys
    requires forall id | id in done :: EndingAllowed(s, id, done[id], v)
    ensures Data(Settle(s, done), v) && Resolves(s.log, Settle(s, done).log)
    ensures (forall id | id in done :: !FromServer(done[id])) ==> Extends(s.log, Settle(s, done).log)
  {
    hide Books, Truthful, Chained, Converges, Timers, Flight, Carried, Endings, Admitted, Ledgered, EndingAllowed;
    hide Extends, Resolves;
    hide Total, At, RequestBytes;
    var s' := Settle(s, done);
    SettleBooks(s.config, s.subs, s.pending, s.others, s.items, s.bytes, done.Keys, s'.items, s'.bytes);
    FewerPending(s, done.Keys);
    FewerCarried(s, done.Keys);
    SettleRecord(s, done, w, v);
    SettleLedger(s, done, v);
    SettleExtends(s, done);
  }

  /** Rejecting is allowed when a transmitted mutation or procedure is not called unrun. */
  lemma RejectionAllowed(s: State, id: nat, cause: Cause, code: Code, w: World)
    requires Flight(s.log.wire, s.socket && s.ready, s.generation, s.attempt, s.pending) && id in s.pending
    requires LocalCause(cause) && s.pending[id].sent.Some? && !s.pending[id].kind.Query? ==> !ClaimsNotRun(code)
    ensures EndingAllowed(s, id, Rejected(cause, code), w)
  {
    assert RequestFlight(s.log.wire, s.socket && s.ready, s.generation, s.attempt, id, s.pending[id]);
  }
}
