/**
 * What becoming able to send puts on the wire: every subscription and request that
 * is not there yet, in ascending id, and the requests that are overdue ended instead.
 */
module SessionResending {
  import opened Basics
  import opened Protocol
  import opened SessionSpec
  import opened SessionInvariants
  import opened SessionAtoms
  import opened SessionConnection
  import opened SessionSending
  import opened SessionFlushing
  import opened SessionLoops

  // ------------------------------------------------------------- what is to be sent

  function OnWire(generation: nat, frames: seq<ClientFrame>): seq<Transmission> {
    seq(|frames|, i requires 0 <= i < |frames| => Transmission(generation, frames[i]))
  }

  lemma OnWireJoins(generation: nat, a: seq<ClientFrame>, b: seq<ClientFrame>)
    ensures OnWire(generation, a + b) == OnWire(generation, a) + OnWire(generation, b)
  {
  }

  /** Where a subscription resumes. */
  function ResumeAt(sub: Subscription): Option<Cursor> {
    if sub.stream.Outcomes? then sub.stream.cursor else None
  }

  function SubFrame(subs: map<nat, Subscription>, generation: nat, id: nat): seq<ClientFrame> {
    if id in subs && !subs[id].waiting && subs[id].sent != Some(generation)
    then [SubscribeFrame(id, ResumeAt(subs[id]))] else []
  }

  /** The subscriptions to be put on a connection, from one id up to another. */
  function ResentSubs(subs: map<nat, Subscription>, generation: nat, id: nat, end: nat): seq<ClientFrame>
    decreases end - id
  {
    if id >= end then [] else SubFrame(subs, generation, id) + ResentSubs(subs, generation, id + 1, end)
  }

  predicate Overdue(r: Request, now: nat) {
    r.expiresAt <= now
  }

  function RequestFrame(pending: map<nat, Request>, generation: nat, now: nat, id: nat): seq<ClientFrame> {
    if id !in pending then []
    else if Overdue(pending[id], now) then
      if pending[id].kind.Procedure? && pending[id].sent == Some(generation) then [Cancel(id)] else []
    else if pending[id].sent != Some(generation) then [Call(id, pending[id].kind)]
    else []
  }

  /** The requests to be put on a connection, and the overdue procedures to be cancelled there. */
  function ResentRequests(pending: map<nat, Request>, generation: nat, now: nat, id: nat, end: nat): seq<ClientFrame>
    decreases end - id
  {
    if id >= end then []
    else RequestFrame(pending, generation, now, id) + ResentRequests(pending, generation, now, id + 1, end)
  }

  function FrameId(f: ClientFrame): nat {
    match f
    case SubscribeFrame(id, _) => id
    case Call(id, _) => id
    case Cancel(id) => id
    case _ => 0
  }

  predicate Ascending(frames: seq<ClientFrame>) {
    forall i, j | 0 <= i < j < |frames| :: FrameId(frames[i]) < FrameId(frames[j])
  }

  /** Each is there once, in ascending id. */
  lemma {:induction false} ResentSubsAscend(subs: map<nat, Subscription>, generation: nat, id: nat, end: nat)
    ensures forall f | f in ResentSubs(subs, generation, id, end) :: id <= FrameId(f) < end
    ensures Ascending(ResentSubs(subs, generation, id, end))
    ensures forall k | id <= k < end && k in subs && !subs[k].waiting && subs[k].sent != Some(generation) ::
              SubscribeFrame(k, ResumeAt(subs[k])) in ResentSubs(subs, generation, id, end)
    decreases end - id
  {
    if id < end { ResentSubsAscend(subs, generation, id + 1, end); }
  }

  lemma {:induction false} ResentRequestsAscend(pending: map<nat, Request>, generation: nat, now: nat,
                                                id: nat, end: nat)
    ensures forall f | f in ResentRequests(pending, generation, now, id, end) :: id <= FrameId(f) < end
    ensures Ascending(ResentRequests(pending, generation, now, id, end))
    ensures forall k | id <= k < end && k in pending && !Overdue(pending[k], now) &&
                       pending[k].sent != Some(generation) ::
              Call(k, pending[k].kind) in ResentRequests(pending, generation, now, id, end)
    decreases end - id
  {
    if id < end { ResentRequestsAscend(pending, generation, now, id + 1, end); }
  }

  // -------------------------------------------------------------- subscriptions

  ghost predicate Framed(subs: map<nat, Subscription>) {
    forall id | id in subs :: subs[id].frame == SubscribeFrame(id, ResumeAt(subs[id]))
  }

  /** Subscriptions alike but for where they were put. */
  ghost predicate Alike(a: map<nat, Subscription>, b: map<nat, Subscription>) {
    a.Keys == b.Keys && forall id | id in a :: b[id] == a[id].(sent := b[id].sent)
  }

  /** Only frames have gone out, and marks of where. */
  ghost predicate JustSent(s: State, t: State, frames: seq<ClientFrame>) {
    && t == s.(env := s.env.(sends := t.env.sends), subs := t.subs,
               log := s.log.(wire := s.log.wire + OnWire(s.generation, frames)))
    && Alike(s.subs, t.subs)
  }

  lemma SendGoesOut(s: State, f: ClientFrame)
    requires CanSend(s)
    ensures var t := Send(s, f);
            t.socket ==> t == s.(env := s.env.(sends := t.env.sends),
                                 log := s.log.(wire := s.log.wire + [Transmission(s.generation, f)]))
  {
    hide LoseConnection;
    LostHasNoSocket(s);
  }

  lemma SendStaysDown(s: State, f: ClientFrame)
    requires !s.socket
    ensures Send(s, f) == s
  {
  }

  lemma SendSubGoesOut(s: State, id: nat)
    requires CanSend(s) && id in s.subs && Framed(s.subs)
    ensures var t := SendSub(s, id);
            t.socket ==>
              && JustSent(s, t, [SubscribeFrame(id, ResumeAt(s.subs[id]))])
              && t.subs == s.subs[id := s.subs[id].(sent := Some(s.generation))]
  {
    hide Send, OnWire, Alike;
    SendGoesOut(s, s.subs[id].frame);
    OneOnWire(s.generation, s.subs[id].frame);
    MarkedAlike(s.subs, id, s.generation);
    var s1 := Send(s, s.subs[id].frame);
    if s1.socket { assert SendSub(s, id) == s1.(subs := s.subs[id := s.subs[id].(sent := Some(s.generation))]); }
  }

  lemma MarkedAlike(subs: map<nat, Subscription>, id: nat, generation: nat)
    requires id in subs
    ensures Alike(subs, subs[id := subs[id].(sent := Some(generation))])
  {
  }

  lemma {:induction false} FlushSubsStaysDown(s: State, id: nat, end: nat)
    requires !s.socket
    ensures !FlushSubs(s, id, end).socket
    decreases end - id
  {
    if id < end {
      if id in s.subs { SendStaysDown(s, s.subs[id].frame); }
      var s1 := if id in s.subs && !s.subs[id].waiting && s.subs[id].sent != Some(s.generation)
                then SendSub(s, id) else s;
      FlushSubsStaysDown(s1, id + 1, end);
    }
  }

  lemma {:induction false} ResentSubsLocal(a: map<nat, Subscription>, b: map<nat, Subscription>, generation: nat,
                                          id: nat, end: nat)
    requires a.Keys == b.Keys && forall k | k in a && id <= k :: a[k] == b[k]
    ensures ResentSubs(a, generation, id, end) == ResentSubs(b, generation, id, end)
    decreases end - id
  {
    if id < end { ResentSubsLocal(a, b, generation, id + 1, end); }
  }

  lemma SentThenSent(s: State, m: State, t: State, first: seq<ClientFrame>, later: seq<ClientFrame>)
    requires JustSent(s, m, first) && JustSent(m, t, later)
    ensures JustSent(s, t, first + later)
  {
    OnWireJoins(s.generation, first, later);
    assert s.log.wire + OnWire(s.generation, first) + OnWire(s.generation, later)
        == s.log.wire + OnWire(s.generation, first + later);
  }

  lemma {:induction false} FlushSubsSends(s: State, id: nat, end: nat)
    requires CanSend(s) && Framed(s.subs)
    ensures var t := FlushSubs(s, id, end);
            t.socket ==>
              && JustSent(s, t, ResentSubs(s.subs, s.generation, id, end))
              && (forall k | k in t.subs ::
                    if id <= k < end && !s.subs[k].waiting then t.subs[k].sent == Some(s.generation)
                    else t.subs[k] == s.subs[k])
    decreases end - id
  {
    hide SendSub, JustSent, CanSend, Framed;
    NothingSent(s);
    if id < end {
      var s1 := if id in s.subs && !s.subs[id].waiting && s.subs[id].sent != Some(s.generation)
                then SendSub(s, id) else s;
      var t := FlushSubs(s1, id + 1, end);
      FlushOneSub(s, id);
      if s1.socket {
        FlushSubsSends(s1, id + 1, end);
        if t.socket {
          ResentSubsLocal(s.subs, s1.subs, s.generation, id + 1, end);
          SentThenSent(s, s1, t, SubFrame(s.subs, s.generation, id), ResentSubs(s1.subs, s.generation, id + 1, end));
          SentKeys(s, s1, SubFrame(s.subs, s.generation, id));
          SentKeys(s1, t, ResentSubs(s1.subs, s.generation, id + 1, end));
        }
      } else {
        FlushSubsStaysDown(s1, id + 1, end);
      }
    }
  }

  lemma NothingSent(s: State)
    ensures JustSent(s, s, [])
  {
  }

  lemma SentKeys(s: State, t: State, frames: seq<ClientFrame>)
    requires JustSent(s, t, frames)
    ensures t.subs.Keys == s.subs.Keys && t.generation == s.generation
    ensures forall k | k in s.subs :: t.subs[k].waiting == s.subs[k].waiting
  {
  }

  lemma FlushOneSub(s: State, id: nat)
    requires CanSend(s) && Framed(s.subs)
    ensures var t := if id in s.subs && !s.subs[id].waiting && s.subs[id].sent != Some(s.generation)
                     then SendSub(s, id) else s;
            t.socket ==>
              && JustSent(s, t, SubFrame(s.subs, s.generation, id)) && CanSend(t) && Framed(t.subs)
              && t.subs.Keys == s.subs.Keys && t.generation == s.generation
              && (forall k | k in s.subs && k != id :: t.subs[k] == s.subs[k])
              && (id in s.subs && !s.subs[id].waiting ==> t.subs[id].sent == Some(s.generation))
  {
    hide SendSub;
    NothingSent(s);
    if id in s.subs { SendSubGoesOut(s, id); }
  }

  // ------------------------------------------------------------------- requests

  /** How an overdue request ends: its code says what is known of whether it ran. */
  function LateCode(r: Request): Code {
    if r.pledge != None then ConvergenceUnavailable
    else if r.sent == None || r.kind == Query then DeadlineExceeded
    else Indeterminate
  }

  /** Only frames have gone out, and requests have been marked or ended. */
  ghost predicate JustAsked(s: State, t: State, frames: seq<ClientFrame>) {
    t == s.(env := s.env.(sends := t.env.sends), pending := t.pending, items := t.items, bytes := t.bytes,
            log := s.log.(wire := s.log.wire + OnWire(s.generation, frames), settled := t.log.settled))
  }

  /** Of the requests from one id up to another the overdue are ended, and the others put on the connection. */
  ghost predicate Treated(s: State, t: State, id: nat, end: nat) {
    && t.pending.Keys <= s.pending.Keys
    && (forall k | k in s.pending && id <= k < end && Overdue(s.pending[k], s.env.now) ::
          && k !in t.pending && k in t.log.settled
          && t.log.settled[k] == Settled(s.pending[k].kind, Rejected(Deadline, LateCode(s.pending[k]))))
    && (forall k | k in s.pending && id <= k < end && !Overdue(s.pending[k], s.env.now) ::
          k in t.pending && t.pending[k] == s.pending[k].(sent := Some(s.generation)))
    && (forall k | k in s.pending && !(id <= k < end) :: k in t.pending && t.pending[k] == s.pending[k])
    && (forall k | k !in s.pending && k in s.log.settled :: k in t.log.settled && t.log.settled[k] == s.log.settled[k])
    && (forall k | k in t.log.settled :: k in s.log.settled || k in s.pending)
  }

  lemma {:induction false} FlushRequestsStaysDown(s: State, id: nat, end: nat)
    requires !s.socket
    ensures !FlushRequests(s, id, end).socket
    decreases end - id
  {
    hide Finish;
    if id < end {
      if id in s.pending {
        SendStaysDown(s, Call(id, s.pending[id].kind));
        FinishFrame(s, id, Rejected(Deadline, ExpiryCode(s.pending[id])));
      }
      var s1 := if id !in s.pending then s
                else if s.pending[id].expiresAt <= s.env.now then Expire(s, id)
                else if s.pending[id].sent != Some(s.generation) then SendRequest(s, id)
                else s;
      FlushRequestsStaysDown(s1, id + 1, end);
    }
  }

  lemma CancelGoesOut(s: State, id: nat)
    requires CanSend(s) && id in s.pending && Overdue(s.pending[id], s.env.now)
    ensures var t := SendCancel(s, id);
            t.socket ==>
              t == s.(env := s.env.(sends := t.env.sends),
                      log := s.log.(wire := s.log.wire +
                               OnWire(s.generation, RequestFrame(s.pending, s.generation, s.env.now, id))))
  {
    hide Send, OnWire;
    OneOnWire(s.generation, Cancel(id));
    if InFlight(s.pending[id], s.generation) {
      SendGoesOut(s, Cancel(id));
      assert RequestFrame(s.pending, s.generation, s.env.now, id) == [Cancel(id)];
    } else {
      assert s.log.wire + [] == s.log.wire;
    }
  }

  lemma ExpireGoesOut(s: State, id: nat)
    requires CanSend(s) && id in s.pending && Overdue(s.pending[id], s.env.now)
    ensures var t := Expire(s, id);
            t.socket ==>
              && JustAsked(s, t, RequestFrame(s.pending, s.generation, s.env.now, id)) && CanSend(t)
              && t.pending == s.pending - {id}
              && t.log.settled ==
                 s.log.settled[id := Settled(s.pending[id].kind, Rejected(Deadline, LateCode(s.pending[id])))]
  {
    hide SendCancel, Finish, OnWire, RequestFrame;
    var s1 := SendCancel(s, id);
    var how := Rejected(Deadline, ExpiryCode(s.pending[id]));
    CancelGoesOut(s, id);
    FinishFrame(s1, id, how);
    if s1.socket { FinishIsFinished(s1, id, how); }
  }

  lemma CallGoesOut(s: State, id: nat)
    requires CanSend(s) && id in s.pending
    ensures var t := SendRequest(s, id);
            t.socket ==>
              && JustAsked(s, t, [Call(id, s.pending[id].kind)]) && CanSend(t)
              && t.pending == s.pending[id := s.pending[id].(sent := Some(s.generation))]
              && t.log.settled == s.log.settled
  {
    hide Send, OnWire;
    SendGoesOut(s, Call(id, s.pending[id].kind));
    OneOnWire(s.generation, Call(id, s.pending[id].kind));
  }

  lemma OneOnWire(generation: nat, f: ClientFrame)
    ensures OnWire(generation, [f]) == [Transmission(generation, f)] && OnWire(generation, []) == []
  {
  }

  lemma NothingAsked(s: State, id: nat)
    ensures JustAsked(s, s, []) && Treated(s, s, id, id)
  {
  }

  ghost function OneRequest(s: State, id: nat): State {
    if id !in s.pending then s
    else if s.pending[id].expiresAt <= s.env.now then Expire(s, id)
    else if s.pending[id].sent != Some(s.generation) then SendRequest(s, id)
    else s
  }

  lemma FlushOneRequest(s: State, id: nat)
    requires CanSend(s)
    ensures var t := OneRequest(s, id);
            t.socket ==>
              && JustAsked(s, t, RequestFrame(s.pending, s.generation, s.env.now, id)) && CanSend(t)
              && Treated(s, t, id, id + 1)
  {
    hide Expire, SendRequest, JustAsked, CanSend, LateCode;
    NothingAsked(s, id);
    if id in s.pending {
      if Overdue(s.pending[id], s.env.now) { ExpireGoesOut(s, id); } else { CallGoesOut(s, id); }
    }
  }

  lemma AskedThenAsked(s: State, m: State, t: State, first: seq<ClientFrame>, later: seq<ClientFrame>)
    requires JustAsked(s, m, first) && JustAsked(m, t, later)
    ensures JustAsked(s, t, first + later)
  {
    OnWireJoins(s.generation, first, later);
    assert s.log.wire + OnWire(s.generation, first) + OnWire(s.generation, later)
        == s.log.wire + OnWire(s.generation, first + later);
  }

  lemma AskedFrame(s: State, t: State, frames: seq<ClientFrame>)
    requires JustAsked(s, t, frames)
    ensures t.generation == s.generation && t.env.now == s.env.now && t.nextId == s.nextId && t.subs == s.subs
  {
  }

  lemma TreatedThenTreated(s: State, m: State, t: State, id: nat, end: nat)
    requires id < end && Treated(s, m, id, id + 1) && Treated(m, t, id + 1, end)
    requires m.generation == s.generation && m.env.now == s.env.now
    ensures Treated(s, t, id, end)
  {
    hide LateCode;
  }

  lemma {:induction false} ResentRequestsLocal(a: map<nat, Request>, b: map<nat, Request>, generation: nat, now: nat,
                                              id: nat, end: nat)
    requires forall k | id <= k :: k in a <==> k in b
    requires forall k | k in a && id <= k :: a[k] == b[k]
    ensures ResentRequests(a, generation, now, id, end) == ResentRequests(b, generation, now, id, end)
    decreases end - id
  {
    if id < end { ResentRequestsLocal(a, b, generation, now, id + 1, end); }
  }

  lemma TreatedLater(s: State, t: State, id: nat)
    requires Treated(s, t, id, id + 1)
    ensures forall k | id + 1 <= k :: k in s.pending <==> k in t.pending
    ensures forall k | k in s.pending && id + 1 <= k :: s.pending[k] == t.pending[k]
  {
    hide LateCode;
  }

  lemma {:induction false} FlushRequestsSends(s: State, id: nat, end: nat)
    requires CanSend(s) && id <= end
    ensures var t := FlushRequests(s, id, end);
            t.socket ==>
              && JustAsked(s, t, ResentRequests(s.pending, s.generation, s.env.now, id, end)) && CanSend(t)
              && Treated(s, t, id, end)
    decreases end - id
  {
    hide OneRequest, JustAsked, CanSend, Treated, RequestFrame, Expire, SendRequest;
    NothingAsked(s, id);
    if id < end {
      var m := OneRequest(s, id);
      var t := FlushRequests(m, id + 1, end);
      assert FlushRequests(s, id, end) == t by { FlushRequestsStep(s, id, end); }
      FlushOneRequest(s, id);
      if m.socket {
        FlushRequestsSends(m, id + 1, end);
        if t.socket {
          AskedFrame(s, m, RequestFrame(s.pending, s.generation, s.env.now, id));
          TreatedLater(s, m, id);
          ResentRequestsLocal(s.pending, m.pending, s.generation, s.env.now, id + 1, end);
          AskedThenAsked(s, m, t, RequestFrame(s.pending, s.generation, s.env.now, id),
                         ResentRequests(m.pending, s.generation, s.env.now, id + 1, end));
          TreatedThenTreated(s, m, t, id, end);
        }
      } else {
        FlushRequestsStaysDown(m, id + 1, end);
      }
    }
  }

  lemma FlushRequestsStep(s: State, id: nat, end: nat)
    requires id < end
    ensures FlushRequests(s, id, end) == FlushRequests(OneRequest(s, id), id + 1, end)
  {
    hide Expire, SendRequest;
  }

  // ------------------------------------------------------------------ both at once

  /** All that is to be sent: subscriptions, then requests. */
  function ToSend(s: State): seq<ClientFrame> {
    ResentSubs(s.subs, s.generation, 0, s.nextId) + ResentRequests(s.pending, s.generation, s.env.now, 0, s.nextId)
  }

  /** What an able client has done with all that was to be sent. */
  ghost predicate AllSent(s: State, t: State) {
    && t.log.wire == s.log.wire + OnWire(s.generation, ToSend(s))
    && t.generation == s.generation && t.log.delivered == s.log.delivered
    && Alike(s.subs, t.subs)
    && (forall k | k in t.subs && !t.subs[k].waiting :: t.subs[k].sent == Some(t.generation))
    && Treated(s, t, 0, s.nextId)
  }

  lemma FlushSends(s: State, w: World)
    requires Inv(s, w) && CanSend(s)
    ensures CanSend(Flush(s)) ==> AllSent(s, Flush(s))
  {
    hide Inv, FlushSubs, FlushRequests, CanSend, Treated, JustSent, JustAsked, Alike, ResentSubs, ResentRequests;
    InvFramed(s, w);
    var m := FlushSubs(s, 0, s.nextId);
    var t := FlushRequests(m, 0, s.nextId);
    FlushSubsSends(s, 0, s.nextId);
    if m.socket {
      SocketMatters(s, m, ResentSubs(s.subs, s.generation, 0, s.nextId));
      FlushRequestsSends(m, 0, s.nextId);
      if t.socket { BothSent(s, m, t); }
    } else {
      FlushRequestsStaysDown(m, 0, s.nextId);
    }
    Unable(t);
  }

  lemma Unable(t: State)
    ensures CanSend(t) ==> t.socket
  {
  }

  lemma SocketMatters(s: State, m: State, frames: seq<ClientFrame>)
    requires CanSend(s) && JustSent(s, m, frames)
    ensures CanSend(m)
  {
  }

  lemma BothSent(s: State, m: State, t: State)
    requires JustSent(s, m, ResentSubs(s.subs, s.generation, 0, s.nextId))
    requires forall k | k in m.subs ::
               if 0 <= k < s.nextId && !s.subs[k].waiting then m.subs[k].sent == Some(s.generation)
               else m.subs[k] == s.subs[k]
    requires JustAsked(m, t, ResentRequests(m.pending, m.generation, m.env.now, 0, s.nextId))
    requires Treated(m, t, 0, s.nextId)
    requires forall k | k in s.subs :: k < s.nextId
    ensures AllSent(s, t)
  {
    hide ResentSubs, ResentRequests, LateCode;
    OnWireJoins(s.generation, ResentSubs(s.subs, s.generation, 0, s.nextId),
                ResentRequests(s.pending, s.generation, s.env.now, 0, s.nextId));
  }

  lemma InvFramed(s: State, w: World)
    requires Inv(s, w)
    ensures Framed(s.subs) && forall k | k in s.subs :: k < s.nextId
  {
    hide Truthful, Chained, Converges, Timers, Flight, Carried, Endings, Admitted, Linked, Standing;
    hide Total, SubBytes, RequestBytes;
    forall id | id in s.subs
      ensures s.subs[id].frame == SubscribeFrame(id, ResumeAt(s.subs[id]))
    {
      assert SubSized(s.config, id, s.subs[id]);
    }
  }
}
