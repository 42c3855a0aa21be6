/** The client's loops, halfway: what has been done so far against what the specification does at once. */
module SessionLoops {
  import opened Basics
  import opened Protocol
  import opened SessionSpec
  import opened SessionConnection

  // ------------------------------------------------- one request at a time

  lemma MoreBytes(pending: map<nat, Request>, ks: set<nat>, k: nat)
    requires ks <= pending.Keys && k in pending && k !in ks
    ensures Total(At(RequestBytes(pending), ks + {k})) == Total(At(RequestBytes(pending), ks)) + pending[k].bytes
  {
    hide Total;
    var before := At(RequestBytes(pending), ks);
    TotalAdd(before, k, pending[k].bytes);
    assert At(RequestBytes(pending), ks + {k}) == before[k := pending[k].bytes];
  }

  lemma NoBytes(pending: map<nat, Request>)
    ensures Total(At(RequestBytes(pending), {})) == 0
  {
    assert At(RequestBytes(pending), {}) == map[];
  }

  lemma SettleNone(s: State, done: map<nat, Settlement>)
    requires done == map[]
    ensures Settle(s, done) == s
  {
    hide Total, At, RequestBytes;
    NoBytes(s.pending);
    assert s.pending - {} == s.pending;
    assert s.log.settled + map[] == s.log.settled;
  }

  ghost function Finished(s: State, id: nat, how: Settlement): State
    requires id in s.pending
  {
    s.(pending := s.pending - {id}, items := s.items - 1, bytes := s.bytes - s.pending[id].bytes,
       log := s.log.(settled := s.log.settled[id := Settled(s.pending[id].kind, how)]))
  }

  lemma EndedMore(pending: map<nat, Request>, settled: map<nat, Settled>, done: map<nat, Settlement>,
                  k: nat, how: Settlement)
    requires done.Keys <= pending.Keys && k in pending && k !in done
    ensures settled + Ended(pending, done[k := how])
         == (settled + Ended(pending, done))[k := Settled(pending[k].kind, how)]
  {
    assert Ended(pending, done[k := how]) == Ended(pending, done)[k := Settled(pending[k].kind, how)];
  }

  lemma KeysMore(pending: map<nat, Request>, done: map<nat, Settlement>, k: nat, how: Settlement)
    requires done.Keys <= pending.Keys && k in pending && k !in done
    ensures done[k := how].Keys == done.Keys + {k}
    ensures pending - done[k := how].Keys == pending - done.Keys - {k}
    ensures |done[k := how].Keys| == |done.Keys| + 1
    ensures k in pending - done.Keys && (pending - done.Keys)[k] == pending[k]
  {
    assert done[k := how].Keys == done.Keys + {k};
  }

  /** Settling one more request is finishing it. */
  lemma SettleMore(s: State, done: map<nat, Settlement>, k: nat, how: Settlement)
    requires done.Keys <= s.pending.Keys && k in s.pending && k !in done
    ensures k in Settle(s, done).pending
    ensures Settle(s, done[k := how]) == Finished(Settle(s, done), k, how)
  {
    hide *;
    SettleIs(s, done);
    SettleIs(s, done[k := how]);
    OneMore(s, done, k, how);
    FinishedIs(s, Left(s.pending, done.Keys), s.items - |done.Keys|, s.bytes - Spent(s.pending, done.Keys),
               Recorded(s, done), k, how);
  }

  ghost function Left(pending: map<nat, Request>, done: set<nat>): map<nat, Request> {
    pending - done
  }

  ghost function Spent(pending: map<nat, Request>, done: set<nat>): nat {
    Total(At(RequestBytes(pending), done))
  }

  ghost function Recorded(s: State, done: map<nat, Settlement>): map<nat, Settled>
    requires done.Keys <= s.pending.Keys
  {
    s.log.settled + Ended(s.pending, done)
  }

  ghost function SettledTo(s: State, pending: map<nat, Request>, items: int, bytes: int, settled: map<nat, Settled>)
    : State
  {
    s.(pending := pending, items := items, bytes := bytes, log := s.log.(settled := settled))
  }

  lemma OneMore(s: State, done: map<nat, Settlement>, k: nat, how: Settlement)
    requires done.Keys <= s.pending.Keys && k in s.pending && k !in done
    ensures k in Left(s.pending, done.Keys) && Left(s.pending, done.Keys)[k] == s.pending[k]
    ensures Left(s.pending, done[k := how].Keys) == Left(Left(s.pending, done.Keys), {k})
    ensures |done[k := how].Keys| == |done.Keys| + 1
    ensures Spent(s.pending, done[k := how].Keys) == Spent(s.pending, done.Keys) + s.pending[k].bytes
    ensures Recorded(s, done[k := how]) == Recorded(s, done)[k := Settled(s.pending[k].kind, how)]
  {
    hide Total, At, RequestBytes, Ended;
    MoreBytes(s.pending, done.Keys, k);
    KeysMore(s.pending, done, k, how);
    EndedMore(s.pending, s.log.settled, done, k, how);
  }

  lemma SettleIs(s: State, done: map<nat, Settlement>)
    requires done.Keys <= s.pending.Keys
    ensures Settle(s, done) == SettledTo(s, Left(s.pending, done.Keys), s.items - |done.Keys|,
                                         s.bytes - Spent(s.pending, done.Keys), Recorded(s, done))
    ensures Settle(s, done).pending == Left(s.pending, done.Keys)
  {
    hide Total, At, RequestBytes, Ended;
  }

  lemma FinishedIs(s: State, pending: map<nat, Request>, items: int, bytes: int, settled: map<nat, Settled>,
                   k: nat, how: Settlement)
    requires k in pending
    ensures SettledTo(s, pending, items, bytes, settled).pending == pending
    ensures Finished(SettledTo(s, pending, items, bytes, settled), k, how) ==
              SettledTo(s, Left(pending, {k}), items - 1, bytes - pending[k].bytes,
                        settled[k := Settled(pending[k].kind, how)])
  {
  }

  lemma FinishIsFinished(s: State, id: nat, how: Settlement)
    requires id in s.pending
    ensures Finish(s, id, how) == Finished(s, id, how)
  {
    hide Settle, Finished;
    SettleNone(s, map[]);
    SettleMore(s, map[], id, how);
    assert (map[])[id := how] == map[id := how];
  }

  // --------------------------------------------------------- loops, halfway

  /** Subscriptions with the event cursors of some of them forgotten. */
  ghost function ForgetSome(subs: map<nat, Subscription>, some: set<nat>): map<nat, Subscription> {
    map id | id in subs ::
      if id in some && subs[id].stream.Events? then subs[id].(stream := Events(None)) else subs[id]
  }

  ghost function ConvergingSome(pending: map<nat, Request>, id: nat, upTo: Option<nat>, some: set<nat>)
    : map<nat, Settlement>
  {
    map r | r in Converging(pending, id, upTo) && r in some :: Converging(pending, id, upTo)[r]
  }

  ghost function ReducedSome(pending: map<nat, Request>, id: nat, upTo: Option<nat>, some: set<nat>)
    : map<nat, Request>
  {
    map r | r in pending ::
      if r in some && Released(pending[r], id, upTo) then WithoutObligation(pending[r], id) else pending[r]
  }

  /** The mutations among `some` have been told about a subscription, the others not yet. */
  ghost function DischargeSome(s: State, id: nat, upTo: Option<nat>, some: set<nat>): State {
    var t := Settle(s, ConvergingSome(s.pending, id, upTo, some));
    t.(pending := ReducedSome(t.pending, id, upTo, some))
  }

  lemma DischargeFirst(s: State, id: nat, upTo: Option<nat>)
    ensures DischargeSome(s, id, upTo, {}) == s
  {
    hide Settle, Released;
    assert ConvergingSome(s.pending, id, upTo, {}) == map[];
    SettleNone(s, ConvergingSome(s.pending, id, upTo, {}));
    assert ReducedSome(s.pending, id, upTo, {}) == s.pending;
  }

  lemma DischargeLast(s: State, id: nat, upTo: Option<nat>)
    ensures DischargeSome(s, id, upTo, s.pending.Keys) == Discharge(s, id, upTo)
  {
    hide Settle, Released;
    assert ConvergingSome(s.pending, id, upTo, s.pending.Keys) == Converging(s.pending, id, upTo);
    var t := Settle(s, Converging(s.pending, id, upTo));
    SettleFrame(s, Converging(s.pending, id, upTo));
    assert ReducedSome(t.pending, id, upTo, s.pending.Keys) == Reduced(t.pending, id, upTo);
  }

  /** What being told does to one request. */
  ghost function Told(s: State, id: nat, upTo: Option<nat>, r: nat): State
    requires r in s.pending
  {
    var q := s.pending[r];
    if !Released(q, id, upTo) then s
    else if q.pledge.value.obligations == {id} then Finished(s, r, Convergence(q.pledge.value))
    else s.(pending := s.pending[r := WithoutObligation(q, id)])
  }

  lemma ConvergingNext(pending: map<nat, Request>, id: nat, upTo: Option<nat>, some: set<nat>, r: nat)
    requires r in pending && r !in some
    ensures var last := Released(pending[r], id, upTo) && pending[r].pledge.value.obligations == {id};
            ConvergingSome(pending, id, upTo, some + {r}) ==
              if last then ConvergingSome(pending, id, upTo, some)[r := Convergence(pending[r].pledge.value)]
              else ConvergingSome(pending, id, upTo, some)
  {
    hide Released;
  }

  lemma ReducedNext(pending: map<nat, Request>, id: nat, upTo: Option<nat>, some: set<nat>, r: nat)
    requires r !in some
    ensures ReducedSome(pending, id, upTo, some + {r}) ==
              if r in pending && Released(pending[r], id, upTo)
              then ReducedSome(pending, id, upTo, some)[r := WithoutObligation(pending[r], id)]
              else ReducedSome(pending, id, upTo, some)
    ensures ReducedSome(pending - {r}, id, upTo, some + {r}) == ReducedSome(pending, id, upTo, some) - {r}
    ensures r in pending ==> ReducedSome(pending, id, upTo, some)[r] == pending[r]
    ensures ReducedSome(pending, id, upTo, some).Keys == pending.Keys
  {
    hide Released;
  }

  /** A request that has not been told is as it was. */
  lemma DischargeHere(s: State, id: nat, upTo: Option<nat>, some: set<nat>, r: nat)
    requires r in s.pending && r !in some
    ensures var t := DischargeSome(s, id, upTo, some); r in t.pending && t.pending[r] == s.pending[r]
  {
    hide ConvergingSome, ReducedSome, Settle, OnlySettled, Released;
    ConvergingSomeKeys(s.pending, id, upTo, some);
    var done := ConvergingSome(s.pending, id, upTo, some);
    SettleFrame(s, done);
    ReducedNext(Settle(s, done).pending, id, upTo, some, r);
  }

  lemma DischargeLastObligation(s: State, id: nat, upTo: Option<nat>, some: set<nat>, r: nat)
    requires r in s.pending && r !in some && r in DischargeSome(s, id, upTo, some).pending
    requires Released(s.pending[r], id, upTo) && s.pending[r].pledge.value.obligations == {id}
    ensures DischargeSome(s, id, upTo, some + {r}) ==
            Finished(DischargeSome(s, id, upTo, some), r, Convergence(s.pending[r].pledge.value))
  {
    hide ConvergingSome, ReducedSome, Settle, Finished, OnlySettled, Convergence;
    ConvergingSomeKeys(s.pending, id, upTo, some);
    ConvergingNext(s.pending, id, upTo, some, r);
    var done := ConvergingSome(s.pending, id, upTo, some);
    SettleFrame(s, done);
    var t := Settle(s, done);
    ReducedNext(t.pending, id, upTo, some, r);
    var how := Convergence(s.pending[r].pledge.value);
    SettleMore(s, done, r, how);
    FinishedReduced(t, r, how, ReducedSome(t.pending, id, upTo, some));
  }

  lemma DischargeOtherObligation(s: State, id: nat, upTo: Option<nat>, some: set<nat>, r: nat)
    requires r in s.pending && r !in some && r in DischargeSome(s, id, upTo, some).pending
    requires !(Released(s.pending[r], id, upTo) && s.pending[r].pledge.value.obligations == {id})
    ensures var t := DischargeSome(s, id, upTo, some);
            DischargeSome(s, id, upTo, some + {r}) ==
              if Released(s.pending[r], id, upTo)
              then t.(pending := t.pending[r := WithoutObligation(s.pending[r], id)]) else t
  {
    hide ConvergingSome, ReducedSome, Settle, OnlySettled, WithoutObligation;
    ConvergingSomeKeys(s.pending, id, upTo, some);
    ConvergingNext(s.pending, id, upTo, some, r);
    var done := ConvergingSome(s.pending, id, upTo, some);
    SettleFrame(s, done);
    ReducedNext(Settle(s, done).pending, id, upTo, some, r);
  }

  lemma DischargeNext(s: State, id: nat, upTo: Option<nat>, some: set<nat>, r: nat)
    requires r in s.pending && r !in some
    ensures var t := DischargeSome(s, id, upTo, some);
            && r in t.pending && t.pending[r] == s.pending[r]
            && DischargeSome(s, id, upTo, some + {r}) == Told(t, id, upTo, r)
  {
    hide DischargeSome, Finished, Convergence;
    DischargeHere(s, id, upTo, some, r);
    if Released(s.pending[r], id, upTo) && s.pending[r].pledge.value.obligations == {id} {
      DischargeLastObligation(s, id, upTo, some, r);
    } else {
      DischargeOtherObligation(s, id, upTo, some, r);
    }
  }

  /** Finishing a request does not look at the others. */
  lemma FinishedReduced(t: State, r: nat, how: Settlement, p: map<nat, Request>)
    requires r in t.pending && r in p && p[r] == t.pending[r]
    ensures Finished(t.(pending := p), r, how) == Finished(t, r, how).(pending := p - {r})
    ensures Finished(t, r, how).pending == t.pending - {r}
  {
  }

  lemma ConvergingSomeKeys(pending: map<nat, Request>, id: nat, upTo: Option<nat>, some: set<nat>)
    ensures ConvergingSome(pending, id, upTo, some).Keys <= pending.Keys * some
  {
  }

  lemma SizesKeys(subs: map<nat, Subscription>)
    ensures SubBytes(subs).Keys == subs.Keys
    ensures forall id | id in subs :: SubBytes(subs)[id] == subs[id].bytes
    ensures At(SubBytes(subs), subs.Keys) == SubBytes(subs)
  {
  }

  lemma TotalNone()
    ensures Total(map[]) == 0
  {
  }

  lemma FinishAbsent(s: State, id: nat, how: Settlement)
    requires id !in s.pending
    ensures Finish(s, id, how) == s
  {
  }
}
