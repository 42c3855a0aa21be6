/** Sending frames, finishing requests and flushing keep the invariants. */
module SessionSending {
  import opened Basics
  import opened Protocol
  import opened SessionSpec
  import opened SessionInvariants
  import opened SessionAtoms
  import opened SessionConnection

  ghost function Sent(s: State, f: ClientFrame): State {
    s.(env := s.env.(sends := if s.env.sends > 0 then s.env.sends - 1 else 0),
       log := s.log.(wire := s.log.wire + [Transmission(s.generation, f)]))
  }

  /** A frame that is not a request leaves every request's transmissions alone. */
  lemma OtherFrameOnWire(wire: seq<Transmission>, t: Transmission, live: bool, generation: nat,
                         attempt: Option<Attempt>, pending: map<nat, Request>,
                         settled: map<nat, Settled>, issued: set<nat>)
    requires !t.frame.Call?
    requires Flight(wire, live, generation, attempt, pending) && Endings(wire, settled, issued)
    ensures Flight(wire + [t], live, generation, attempt, pending) && Endings(wire + [t], settled, issued)
  {
    TransmissionsAppend(wire, t);
    forall id | id in pending
      ensures RequestFlight(wire + [t], live, generation, attempt, id, pending[id])
    {
      assert RequestFlight(wire, live, generation, attempt, id, pending[id]);
    }
    forall id | id in settled
      ensures EndingHonest(wire + [t], id, settled[id])
    {
      assert EndingHonest(wire, id, settled[id]);
    }
  }

  lemma WireExtends(s: State, f: ClientFrame)
    ensures Extends(s.log, Sent(s, f).log)
  {
  }

  lemma SendKeeps(s: State, f: ClientFrame, w: World)
    requires Inv(s, w) && !f.Call?
    ensures Inv(Send(s, f), w) && Extends(s.log, Send(s, f).log)
  {
    hide Books, Ledgered, Truthful, Chained, Converges, Timers, Flight, Carried, Endings, Admitted, Extends;
    hide LoseConnection;
    ExtendsItself(s.log);
    if s.socket && s.open {
      if s.env.sends > 0 {
        OtherFrameOnWire(s.log.wire, Transmission(s.generation, f), s.socket && s.ready, s.generation,
                         s.attempt, s.pending, s.log.settled, s.log.issued);
        CarriedOn(s.log.wire, s.socket, s.generation, s.subs, s.pending,
                  s.log.wire + [Transmission(s.generation, f)], s.socket, s.generation);
        WireExtends(s, f);
      } else {
        LoseConnectionKeeps(s, w);
      }
    }
  }

  lemma MarkSubCarried(s: State, id: nat, sent: Option<nat>)
    requires Carried(s.log.wire, s.socket, s.generation, s.subs, s.pending) && id in s.subs
    requires SubCarried(s.log.wire, s.socket, s.generation, id, s.subs[id].(sent := sent))
    ensures Carried(s.log.wire, s.socket, s.generation, s.subs[id := s.subs[id].(sent := sent)], s.pending)
  {
    hide RequestCarried, SubCarried;
  }

  lemma MarkSubKeeps(s: State, id: nat, sent: Option<nat>, w: World)
    requires Inv(s, w) && id in s.subs
    requires SubCarried(s.log.wire, s.socket, s.generation, id, s.subs[id].(sent := sent))
    ensures Inv(s.(subs := s.subs[id := s.subs[id].(sent := sent)]), w)
  {
    hide Books, Ledgered, Truthful, Chained, Converges, Timers, Flight, Carried, Endings, Admitted;
    MarkSubCarried(s, id, sent);
    SubsKeepData(s, s.subs[id := s.subs[id].(sent := sent)], w);
  }

  lemma SendSubKeeps(s: State, id: nat, w: World)
    requires Inv(s, w) && id in s.subs && (s.socket ==> s.open)
    ensures Inv(SendSub(s, id), w) && Extends(s.log, SendSub(s, id).log)
  {
    hide Inv, Extends, Send;
    SubFrames(s, id, w);
    SendKeeps(s, s.subs[id].frame, w);
    var s1 := Send(s, s.subs[id].frame);
    if id in s1.subs {
      SentIsCarried(s, id);
      MarkSubKeeps(s1, id, Some(s1.generation), w);
    }
  }

  lemma SentIsCarried(s: State, id: nat)
    requires id in s.subs && s.subs[id].frame.SubscribeFrame? && s.subs[id].frame.id == id && (s.socket ==> s.open)
    requires var t := Send(s, s.subs[id].frame); id in t.subs
    ensures var t := Send(s, s.subs[id].frame);
            SubCarried(t.log.wire, t.socket, t.generation, id, t.subs[id].(sent := Some(t.generation)))
  {
    hide LoseConnection;
    LostHasNoSocket(s);
    if s.socket && s.env.sends > 0 {
      var t := Send(s, s.subs[id].frame);
      assert t.log.wire[|s.log.wire|] == Transmission(s.generation, s.subs[id].frame);
    }
  }

  lemma SubFrames(s: State, id: nat, w: World)
    requires Inv(s, w) && id in s.subs
    ensures s.subs[id].frame.SubscribeFrame? && s.subs[id].frame.id == id && id < s.nextId
  {
    hide Ledgered, Truthful, Chained, Converges, Timers, Flight, Carried, Endings, Admitted, Linked, Standing, Total;
    assert SubSized(s.config, id, s.subs[id]);
    SubIdsBelow(s, id);
  }

  lemma SubIdsBelow(s: State, id: nat)
    requires Ledgered(s.nextId, s.subs, s.pending, s.log.settled, s.log.issued, s.log.delivered, s.log.held)
    requires id in s.subs
    ensures id < s.nextId
  {
  }

  /** While flushing, whatever socket there is can carry operations. */
  predicate Flushing(s: State) {
    s.socket ==> CanSend(s)
  }

  lemma CallOnWire(s: State, id: nat, w: World)
    requires Data(s, w) && id in s.pending
    requires s.socket && s.ready && s.attempt.None? && s.pending[id].sent != Some(s.generation)
    ensures var t := Sent(s, Call(id, s.pending[id].kind));
            var p := s.pending[id := s.pending[id].(sent := Some(s.generation))];
            && Flight(t.log.wire, true, s.generation, None, p)
            && Endings(t.log.wire, s.log.settled, s.log.issued)
  {
    hide Books, Truthful, Chained, Converges, Timers, Admitted;
    TransmissionsAppend(s.log.wire, Transmission(s.generation, Call(id, s.pending[id].kind)));
    assert RequestFlight(s.log.wire, s.socket && s.ready, s.generation, s.attempt, id, s.pending[id]);
    var t := Sent(s, Call(id, s.pending[id].kind));
    var p := s.pending[id := s.pending[id].(sent := Some(s.generation))];
    forall j | j in p
      ensures RequestFlight(t.log.wire, true, s.generation, None, j, p[j])
    {
      assert RequestFlight(s.log.wire, s.socket && s.ready, s.generation, s.attempt, j, s.pending[j]);
    }
    forall j | j in s.log.settled
      ensures EndingHonest(t.log.wire, j, s.log.settled[j])
    {
      assert EndingHonest(s.log.wire, j, s.log.settled[j]);
    }
  }

  /** Marking where a request was last put changes only what `Flight` says of it. */
  lemma MarkRequestData(s: State, id: nat, g: nat, w: World)
    requires id in s.pending
    requires Books(s.config, s.subs, s.pending, s.others, s.items, s.bytes)
    requires Ledgered(s.nextId, s.subs, s.pending, s.log.settled, s.log.issued, s.log.delivered, s.log.held)
    requires Converges(s.subs, s.pending, s.log.settled, s.log.held, w)
    requires Timers(s.config, s.env.now, s.arms, s.pending)
    ensures var p := s.pending[id := s.pending[id].(sent := Some(g))];
            && Books(s.config, s.subs, p, s.others, s.items, s.bytes)
            && Ledgered(s.nextId, s.subs, p, s.log.settled, s.log.issued, s.log.delivered, s.log.held)
            && Converges(s.subs, p, s.log.settled, s.log.held, w)
            && Timers(s.config, s.env.now, s.arms, p)
  {
    hide Books, Ledgered, Converges, RequestTimer;
    var p := s.pending[id := s.pending[id].(sent := Some(g))];
    MarkBooks(s.config, s.subs, s.pending, s.others, s.items, s.bytes, p);
    MarkConverges(s, id, g, w);
    MarkLedger(s, id, g);
    MarkTimer(s, id, g);
  }

  lemma MarkTimer(s: State, id: nat, g: nat)
    requires id in s.pending && Timers(s.config, s.env.now, s.arms, s.pending)
    ensures RequestTimer(s.config, s.env.now, s.arms, s.pending[id].(sent := Some(g)))
  {
    assert RequestTimer(s.config, s.env.now, s.arms, s.pending[id]);
  }

  lemma MarkBooks(config: Config, subs: map<nat, Subscription>, pending: map<nat, Request>,
                  others: map<nat, nat>, items: int, bytes: int, p: map<nat, Request>)
    requires Books(config, subs, pending, others, items, bytes)
    requires p.Keys == pending.Keys
    requires forall id | id in p :: p[id].kind == pending[id].kind && p[id].bytes == pending[id].bytes
    ensures Books(config, subs, p, others, items, bytes)
  {
    hide Total, SubBytes, SubSized;
    assert RequestBytes(p) == RequestBytes(pending);
    assert |p.Keys| == |pending.Keys|;
  }

  lemma MarkConverges(s: State, id: nat, g: nat, w: World)
    requires id in s.pending && Converges(s.subs, s.pending, s.log.settled, s.log.held, w)
    ensures Converges(s.subs, s.pending[id := s.pending[id].(sent := Some(g))], s.log.settled, s.log.held, w)
  {
    hide Past, Waiting, WaitingTillNow, ConvergedHolds;
    assert PledgeHolds(s.subs, s.log.held, w, id, s.pending[id]);
    assert PledgeHolds(s.subs, s.log.held, w, id, s.pending[id].(sent := Some(g)));
  }

  lemma MarkLedger(s: State, id: nat, g: nat)
    requires id in s.pending
    requires Ledgered(s.nextId, s.subs, s.pending, s.log.settled, s.log.issued, s.log.delivered, s.log.held)
    ensures Ledgered(s.nextId, s.subs, s.pending[id := s.pending[id].(sent := Some(g))], s.log.settled,
                     s.log.issued, s.log.delivered, s.log.held)
  {
    var p := s.pending[id := s.pending[id].(sent := Some(g))];
    assert p.Keys == s.pending.Keys;
  }

  lemma MarkFlight(s: State, id: nat, g: nat)
    requires id in s.pending && !s.socket
    requires Flight(s.log.wire, s.socket && s.ready, s.generation, s.attempt, s.pending)
    ensures Flight(s.log.wire, s.socket && s.ready, s.generation, s.attempt,
                   s.pending[id := s.pending[id].(sent := Some(g))])
  {
    var p := s.pending[id := s.pending[id].(sent := Some(g))];
    forall j | j in p
      ensures RequestFlight(s.log.wire, s.socket && s.ready, s.generation, s.attempt, j, p[j])
    {
      assert RequestFlight(s.log.wire, s.socket && s.ready, s.generation, s.attempt, j, s.pending[j]);
    }
  }

  lemma MarkStanding(s: State, id: nat, g: nat)
    requires id in s.pending && Standing(s)
    ensures Standing(s.(pending := s.pending[id := s.pending[id].(sent := Some(g))]))
  {
  }

  lemma MarkCarried(s: State, id: nat)
    requires Carried(s.log.wire, s.socket, s.generation, s.subs, s.pending) && id in s.pending
    requires s.socket ==> Transmission(s.generation, Call(id, s.pending[id].kind)) in s.log.wire
    ensures Carried(s.log.wire, s.socket, s.generation, s.subs,
                    s.pending[id := s.pending[id].(sent := Some(s.generation))])
  {
    hide SubCarried;
    var p := s.pending[id := s.pending[id].(sent := Some(s.generation))];
    forall j | j in p
      ensures RequestCarried(s.log.wire, s.socket, s.generation, j, p[j])
    {
      assert RequestCarried(s.log.wire, s.socket, s.generation, j, s.pending[j]);
    }
  }

  /** Marking a request that never made it out, on a connection that is gone. */
  lemma MarkLostKeeps(s: State, id: nat, w: World)
    requires Inv(s, w) && id in s.pending && !s.socket
    ensures Inv(s.(pending := s.pending[id := s.pending[id].(sent := Some(s.generation))]), w)
  {
    hide Books, Ledgered, Truthful, Chained, Converges, Timers, Flight, Carried, Endings, Admitted, Standing;
    MarkRequestData(s, id, s.generation, w);
    MarkFlight(s, id, s.generation);
    MarkCarried(s, id);
    MarkStanding(s, id, s.generation);
  }

  lemma SendRequestKeeps(s: State, id: nat, w: World)
    requires Inv(s, w) && id in s.pending && Flushing(s) && s.pending[id].sent != Some(s.generation)
    ensures Inv(SendRequest(s, id), w) && Extends(s.log, SendRequest(s, id).log)
    ensures Flushing(SendRequest(s, id))
  {
    hide Books, Ledgered, Truthful, Chained, Converges, Timers, Flight, Carried, Endings, Admitted, Extends;
    hide LoseConnection;
    var f := Call(id, s.pending[id].kind);
    if s.socket && s.env.sends > 0 {
      CallOnWire(s, id, w);
      CarriedOn(s.log.wire, s.socket, s.generation, s.subs, s.pending, Sent(s, f).log.wire, s.socket, s.generation);
      assert Sent(s, f).log.wire[|s.log.wire|] == Transmission(s.generation, f);
      MarkCarried(Sent(s, f), id);
      MarkRequestData(s, id, s.generation, w);
      MarkStanding(s, id, s.generation);
      WireExtends(s, f);
    } else {
      ExtendsItself(s.log);
      if s.socket { LoseConnectionKeeps(s, w); LostHasNoSocket(s); }
      var s1 := Send(s, f);
      if id in s1.pending { MarkLostKeeps(s1, id, w); }
    }
  }

  lemma LostHasNoSocket(s: State)
    ensures !LoseConnection(s).socket
  {
    hide Settle, SettleAll, NotifyAll, DropAll;
    SettleInFlightFrame(s);
    hide SettleInFlight;
  }
}
