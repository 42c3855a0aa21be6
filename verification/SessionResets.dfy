/**
 * What a client does about a transition it cannot take, about a server that asks it
 * to stay away, and about room others reserve, in every run.
 */
module SessionResets {
  import opened Basics
  import opened Protocol
  import opened SessionSpec
  import opened SessionInvariants
  import opened SessionAtoms
  import opened SessionConnection
  import opened SessionSending
  import opened SessionFlushing
  import opened SessionTransitions
  import opened SessionRuns
  import opened SessionTheorems
  import opened SessionEffects

  // ----------------------------------------------------------------- transitions

  /** The query's transition lands elsewhere than on the cursor held. */
  predicate Elsewhere(s: State, id: nat, t: Transition) {
    id in s.subs && s.subs[id].stream.Outcomes? && s.subs[id].stream.cursor != Some(t.to)
  }

  /** The frame that asks for a reset: from the cursor held, or the subscription anew when there is none. */
  function AskFrame(id: nat, cursor: Option<Cursor>): ClientFrame {
    match cursor
    case Some(at) => ResetFrame(id, at)
    case None => SubscribeFrame(id, None)
  }

  /**
   * A transition that does not start from the cursor held makes an able client ask for
   * a reset, once: until the reset comes nothing more is asked, and nothing is taken.
   */
  lemma GapAsksForReset(b: Beginning, ms: seq<Moment>, m: Moment, id: nat, t: Transition)
    requires Brings(b, ms, m, Deliver(id, t)) && Elsewhere(Run(b, ms), id, t)
    requires !StartsFrom(Run(b, ms).subs[id].stream.cursor, t) && Able(Run(b, ms)) && m.env.sends > 0
    ensures var s, u := Run(b, ms), Run(b, ms + [m]);
            var q := s.subs[id].stream;
            && id in u.subs && u.subs[id].stream == q.(resetRequested := true) && u.log.held == s.log.held
            && u.log.wire ==
               s.log.wire + if q.resetRequested then [] else [Transmission(s.generation, AskFrame(id, q.cursor))]
  {
    hide Inv, Run, Brings, Follows, ApplyTransition, StartsFrom;
    BringsDispatches(b, ms, m, Deliver(id, t));
    GapAsks(Run(b, ms).(env := m.env), id, t);
  }

  lemma GapAsks(s: State, id: nat, t: Transition)
    requires Elsewhere(s, id, t) && !StartsFrom(s.subs[id].stream.cursor, t) && Able(s) && s.env.sends > 0
    ensures var u, q := ApplyTransition(s, id, t), s.subs[id].stream;
            && id in u.subs && u.subs[id].stream == q.(resetRequested := true) && u.log.held == s.log.held
            && u.log.wire ==
               s.log.wire + if q.resetRequested then [] else [Transmission(s.generation, AskFrame(id, q.cursor))]
  {
    hide RequestReset, ConfirmHeld, Advance, StartsFrom, PredecessorMatches;
    SameWords(s, id, t);
    ResetGoesOut(SettleRetry(s, id), id);
  }

  lemma ResetGoesOut(s: State, id: nat)
    requires id in s.subs && s.subs[id].stream.Outcomes? && Able(s) && s.env.sends > 0
    ensures var u, q := RequestReset(s, id), s.subs[id].stream;
            && id in u.subs && u.subs[id].stream == q.(resetRequested := true) && u.log.held == s.log.held
            && u.log.wire ==
               s.log.wire + if q.resetRequested then [] else [Transmission(s.generation, AskFrame(id, q.cursor))]
  {
    hide Send;
    var q := s.subs[id].stream;
    var s1 := s.(subs := s.subs[id := s.subs[id].(stream := q.(resetRequested := true))]);
    FrameSent(s1, AskFrame(id, q.cursor));
    assert s.log.wire + [] == s.log.wire;
  }

  /** What a query's stream becomes by a transition that the client takes or knows. */
  function Taken(q: Stream, t: Transition): Stream
    requires q.Outcomes?
  {
    if q.cursor == Some(t.to) then Outcomes(q.cursor, q.resetRequested && !t.Reset?) else Outcomes(Some(t.to), false)
  }

  /**
   * A transition that is taken moves the cursor to its own and ends the wait for a
   * reset; one onto the cursor held ends that wait only if it is a reset; one that
   * comes while a reset is awaited and is none changes nothing. In each case the
   * subscription no longer waits to be asked for again.
   */
  lemma TransitionMovesTheCursor(b: Beginning, ms: seq<Moment>, m: Moment, id: nat, t: Transition)
    requires Brings(b, ms, m, Deliver(id, t)) && id in Run(b, ms).subs && Run(b, ms).subs[id].stream.Outcomes?
    ensures var s, u := Run(b, ms), Run(b, ms + [m]);
            var q := s.subs[id].stream;
            var skips := q.cursor != Some(t.to) && q.resetRequested && !t.Reset?;
            var takes := q.cursor == Some(t.to)
                         || ((q.resetRequested ==> t.Reset?) && StartsFrom(q.cursor, t) && RoomFor(s, id, t.to));
            skips || takes ==>
              id in u.subs && !u.subs[id].waiting && u.subs[id].stream == if skips then q else Taken(q, t)
  {
    hide Inv, Run, Brings, Follows, ApplyTransition, StartsFrom, RoomFor;
    BringsDispatches(b, ms, m, Deliver(id, t));
    SameRoomFor(Run(b, ms), m.env, id, t.to);
    CursorMoves(Run(b, ms).(env := m.env), id, t);
  }

  lemma CursorMoves(s: State, id: nat, t: Transition)
    requires id in s.subs && s.subs[id].stream.Outcomes?
    ensures var u, q := ApplyTransition(s, id, t), s.subs[id].stream;
            var skips := q.cursor != Some(t.to) && q.resetRequested && !t.Reset?;
            var takes := q.cursor == Some(t.to)
                         || ((q.resetRequested ==> t.Reset?) && StartsFrom(q.cursor, t) && RoomFor(s, id, t.to));
            skips || takes ==>
              id in u.subs && !u.subs[id].waiting && u.subs[id].stream == if skips then q else Taken(q, t)
  {
    hide RequestReset, ConfirmHeld, Advance, StartsFrom, PredecessorMatches, RoomFor, Retainable;
    SameWords(s, id, t);
    SameRoom(s, id, t.to);
    var s1 := SettleRetry(s, id);
    ConfirmMarks(s1, id, t.Reset?, t.to.commitVersion);
    if Retainable(s1, id, t.to) { AdvanceMarks(s1, id, t); }
  }

  lemma ConfirmMarks(s: State, id: nat, isReset: bool, version: nat)
    requires id in s.subs && s.subs[id].stream.Outcomes?
    ensures var u, q := ConfirmHeld(s, id, isReset, version), s.subs[id].stream;
            && id in u.subs && u.subs[id].waiting == s.subs[id].waiting
            && u.subs[id].stream == q.(resetRequested := q.resetRequested && !isReset)
  {
    hide Discharge, Demand;
    var s1 := Demand(s, id, s.subs[id].stream.resetRequested && !isReset);
    DemandMarks(s, id, s.subs[id].stream.resetRequested && !isReset);
    DischargeFrame(s1, id, Some(version));
  }

  lemma DemandMarks(s: State, id: nat, asking: bool)
    requires id in s.subs && s.subs[id].stream.Outcomes?
    ensures var u := Demand(s, id, asking);
            && id in u.subs && u.subs[id].waiting == s.subs[id].waiting
            && u.subs[id].stream == s.subs[id].stream.(resetRequested := asking)
  {
  }

  lemma AdvanceMarks(s: State, id: nat, t: Transition)
    requires id in s.subs && s.subs[id].stream.Outcomes? && Retainable(s, id, t.to)
    ensures var u := Advance(s, id, t);
            id in u.subs && u.subs[id].waiting == s.subs[id].waiting && u.subs[id].stream == Outcomes(Some(t.to), false)
  {
    hide Discharge, Retainable, Callback;
    DischargeFrame(Notify(Retain(s, id, t), id, Callback(t)), id, Some(t.to.commitVersion));
  }

  /** A cursor there is no room for ends the subscription, which is told whether trying again can help. */
  lemma OversizeIsDropped(b: Beginning, ms: seq<Moment>, m: Moment, id: nat, t: Transition)
    requires Brings(b, ms, m, Deliver(id, t)) && Elsewhere(Run(b, ms), id, t)
    requires var q := Run(b, ms).subs[id].stream;
             (q.resetRequested ==> t.Reset?) && StartsFrom(q.cursor, t) && !RoomFor(Run(b, ms), id, t.to)
    ensures var s, u := Run(b, ms), Run(b, ms + [m]);
            && id !in u.subs
            && Delivered(s.log, id) + [Trouble(Overload(s, id, t.to))] <= Delivered(u.log, id)
            && (Able(s) && m.env.sends > 0 ==>
                  u.log.wire == s.log.wire + [Transmission(s.generation, Unsubscribe(id))])
  {
    hide Inv, Run, Brings, Follows, ApplyTransition, StartsFrom, RoomFor;
    BringsDispatches(b, ms, m, Deliver(id, t));
    SameRoomFor(Run(b, ms), m.env, id, t.to);
    OversizeDrops(Run(b, ms).(env := m.env), id, t, World(ArbitraryServer, {}, Promises(b, ms), None, m.env.now));
  }

  /** What the client says of a cursor it has no room for. */
  function Overload(s: State, id: nat, to: Cursor): Error {
    var fits := Fits(s.config, SubscribeFrame(id, Some(to)));
    Error(Overloaded, fits, if fits then Some(s.config.baseDelay) else None)
  }

  lemma OversizeMeans(s: State, id: nat, t: Transition)
    requires Elsewhere(s, id, t) && !Retainable(s, id, t.to) && PredecessorMatches(s.subs[id].stream.cursor, t)
    requires s.subs[id].stream.resetRequested ==> t.Reset?
    ensures var s1 := SettleRetry(s, id);
            ApplyTransition(s, id, t) == RemoveSub(Notify(s1, id, Trouble(Overload(s, id, t.to))), id, true)
  {
    hide RemoveSub, Retainable, Fits, PredecessorMatches, RequestReset, ConfirmHeld;
    SameRoom(s, id, t.to);
  }

  lemma OversizeDrops(s: State, id: nat, t: Transition, w: World)
    requires Inv(s, w) && w.leaving == {} && Elsewhere(s, id, t)
    requires var q := s.subs[id].stream;
             (q.resetRequested ==> t.Reset?) && StartsFrom(q.cursor, t) && !RoomFor(s, id, t.to)
    ensures var u := ApplyTransition(s, id, t);
            && id !in u.subs
            && Delivered(s.log, id) + [Trouble(Overload(s, id, t.to))] <= Delivered(u.log, id)
            && (Able(s) && s.env.sends > 0 ==>
                  u.log.wire == s.log.wire + [Transmission(s.generation, Unsubscribe(id))])
  {
    hide Inv, StartsFrom, PredecessorMatches, RoomFor, Retainable, RemoveSub, Overload, ApplyTransition;
    var s1 := SettleRetry(s, id);
    SameWords(s, id, t);
    OversizeMeans(s, id, t);
    SettleRetryKeeps(s, id, w);
    RemovalIsTold(Notify(s1, id, Trouble(Overload(s, id, t.to))), id);
    RemovalOnlyAdds(s1, id, Overload(s, id, t.to), w);
  }

  lemma RemovalOnlyAdds(s: State, id: nat, problem: Error, w: World)
    requires Inv(s, w) && w.leaving == {} && id in s.subs
    ensures var s2 := Notify(s, id, Trouble(problem));
            Delivered(s.log, id) + [Trouble(problem)] <= Delivered(RemoveSub(s2, id, true).log, id)
  {
    hide Inv, RemoveSub, Extends;
    IdsBelow(s, w);
    NotifyKeeps(s, id, Trouble(problem), w);
    var s2 := Notify(s, id, Trouble(problem));
    RemoveSubKeeps(s2, id, true, w);
    MutedAdds(s2.log, RemoveSub(s2, id, true).log, id);
  }

  // --------------------------------------------------------------- staying away

  /** A server that asks to stay away is obeyed for what it asks, thirty seconds at the most, and no longer. */
  lemma StaysAwayAsAsked(b: Beginning, ms: seq<Moment>, m: Moment, e: Error)
    requires Brings(b, ms, m, Failure(None, e)) && e.retryable
    ensures var s, t := Run(b, ms), Run(b, ms + [m]);
            var asked := if e.retryAfterMs.None? then 0 else e.retryAfterMs.value;
            var until := m.env.now + if asked > 30_000 then 30_000 else asked;
            && t.notBefore == (if s.notBefore > until then s.notBefore else until)
            && t.pending == s.pending && t.subs == s.subs && t.socket == s.socket && t.log.wire == s.log.wire
  {
    hide Inv, Run, Brings, Follows;
    BringsDispatches(b, ms, m, Failure(None, e));
  }

  // ---------------------------------------------------------------- reservations

  /** The same room is taken. */
  predicate SameRoomTaken(s: State, t: State) {
    && t.others == s.others && t.items == s.items && t.bytes == s.bytes
    && t.pending == s.pending && t.subs == s.subs && t.log == s.log
  }

  /** One more reservation is held, and nothing else has changed that takes room. */
  predicate MoreRoomTaken(s: State, t: State, key: nat, size: nat) {
    && t.others == s.others[key := size] && t.items == s.items + 1 && t.bytes == s.bytes + size
    && t.pending == s.pending && t.subs == s.subs && t.log == s.log
  }

  /** A reservation is held no longer, if it was. */
  predicate LessRoomTaken(s: State, t: State, key: nat) {
    if key !in s.others then SameRoomTaken(s, t)
    else
      && t.others == s.others - {key} && t.items == s.items - 1 && t.bytes == s.bytes - s.others[key]
      && t.pending == s.pending && t.subs == s.subs && t.log == s.log
  }

  /** A reservation's key is free, it fits a frame, and items and bytes leave room. */
  predicate MayReserve(s: State, key: nat, size: nat) {
    && key !in s.others && size <= s.config.maxFrameBytes
    && s.items + 1 <= s.config.maxItems && s.bytes + size <= s.config.maxBytes
  }

  /** A reservation is taken exactly when there is room for it. */
  lemma ReservationIsTaken(b: Beginning, ms: seq<Moment>, m: Moment, key: nat, size: nat)
    requires Follows(b, ms, m) && m.event == Reserve(key, size)
    ensures var s, t := Run(b, ms), Run(b, ms + [m]);
            if MayReserve(s, key, size) then MoreRoomTaken(s, t, key, size) else SameRoomTaken(s, t)
  {
    hide Run, Possible, OnReserve;
    LastStep(b, ms, m);
    Reserved(Run(b, ms).(env := m.env), key, size);
  }

  /** Releasing a reservation gives back exactly what it took. */
  lemma ReleaseUndoesReservation(b: Beginning, ms: seq<Moment>, m: Moment, r: Moment, key: nat, size: nat)
    requires Follows(b, ms, m) && m.event == Reserve(key, size) && key !in Run(b, ms).others
    requires Follows(b, ms + [m], r) && r.event == Release(key)
    ensures SameRoomTaken(Run(b, ms), Run(b, ms + [m] + [r]))
  {
    hide Run, Possible, OnReserve, OnRelease;
    LastStep(b, ms, m);
    LastStep(b, ms + [m], r);
    hide MoreRoomTaken, LessRoomTaken, MayReserve;
    var t := Run(b, ms + [m]);
    ReservationIsTaken(b, ms, m, key, size);
    GivenBack(t.(env := r.env), key);
    SameButClock(t, r.env, Run(b, ms + [m] + [r]), key);
    Undone(Run(b, ms), t, Run(b, ms + [m] + [r]), key, size);
  }

  lemma SameButClock(s: State, env: Env, t: State, key: nat)
    requires LessRoomTaken(s.(env := env), t, key)
    ensures LessRoomTaken(s, t, key)
  {
  }

  lemma Undone(s: State, t: State, u: State, key: nat, size: nat)
    requires key !in s.others && (SameRoomTaken(s, t) || MoreRoomTaken(s, t, key, size)) && LessRoomTaken(t, u, key)
    ensures SameRoomTaken(s, u)
  {
    assert s.others[key := size] - {key} == s.others;
  }

  lemma Reserved(s: State, key: nat, size: nat)
    ensures var t := OnReserve(s, key, size);
            if MayReserve(s, key, size) then MoreRoomTaken(s, t, key, size) else SameRoomTaken(s, t)
  {
  }

  lemma GivenBack(s: State, key: nat)
    ensures LessRoomTaken(s, OnRelease(s, key), key)
  {
  }
}
