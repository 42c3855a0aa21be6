/**
 * The handshake rate limiter: one counting window per owner, kept in the order
 * they were opened; expired windows are dropped only from the front.
 */
module Handshakes {
  import opened Basics

  datatype Limits = Limits(perWindow: nat, windowMs: nat, maxOwners: nat)

  datatype Window = Window(owner: string, count: nat, expiresAt: nat)

  datatype Answer = Admitted | RateFull(retryAfterMs: nat) | OwnersFull

  const MAX_RETRY_AFTER_MS := 30_000

  // ------------------------------------------------------------------ eviction

  /** Drop windows from the front while they are expired. */
  function Evict(ws: seq<Window>, now: nat): seq<Window> {
    if ws == [] || ws[0].expiresAt > now then ws else Evict(ws[1..], now)
  }

  /** Drop every expired window. */
  function Unexpired(ws: seq<Window>, now: nat): seq<Window> {
    if ws == [] then []
    else (if ws[0].expiresAt > now then [ws[0]] else []) + Unexpired(ws[1..], now)
  }

  predicate ByExpiry(ws: seq<Window>) {
    forall i, j | 0 <= i < j < |ws| :: ws[i].expiresAt <= ws[j].expiresAt
  }

  lemma {:induction false} AllUnexpired(ws: seq<Window>, now: nat)
    requires forall w | w in ws :: w.expiresAt > now
    ensures Unexpired(ws, now) == ws
  {
    if ws != [] {
      AllUnexpired(ws[1..], now);
      assert ws == [ws[0]] + ws[1..];
    }
  }

  /** In order of expiry, dropping from the front is dropping every expired window. */
  lemma {:induction false} FrontEvictionIsFull(ws: seq<Window>, now: nat)
    requires ByExpiry(ws)
    ensures Evict(ws, now) == Unexpired(ws, now)
  {
    if ws != [] {
      if ws[0].expiresAt > now {
        AllUnexpired(ws, now);
      } else {
        FrontEvictionIsFull(ws[1..], now);
        assert [] + Unexpired(ws[1..], now) == Unexpired(ws[1..], now);
      }
    }
  }

  /** What is dropped is a part in front, all of it expired. */
  lemma {:induction false} EvictIsSuffix(ws: seq<Window>, now: nat) returns (k: nat)
    ensures k <= |ws| && Evict(ws, now) == ws[k..]
    ensures forall i | 0 <= i < k :: ws[i].expiresAt <= now
    ensures Evict(ws, now) != [] ==> Evict(ws, now)[0].expiresAt > now
  {
    if ws == [] || ws[0].expiresAt > now {
      k := 0;
    } else {
      var j := EvictIsSuffix(ws[1..], now);
      k := j + 1;
      assert ws[1..][j..] == ws[k..];
      forall i | 0 <= i < k
        ensures ws[i].expiresAt <= now
      {
        if i > 0 { assert ws[i] == ws[1..][i - 1]; }
      }
    }
  }

  // ----------------------------------------------------------------- admitting

  function Find(ws: seq<Window>, owner: string): (at: Option<nat>)
    ensures at.Some? ==> at.value < |ws| && ws[at.value].owner == owner
    ensures at.None? ==> forall i | 0 <= i < |ws| :: ws[i].owner != owner
  {
    if ws == [] then None
    else if ws[0].owner == owner then Some(0)
    else
      match Find(ws[1..], owner)
      case None =>
        assert forall i | 0 < i < |ws| :: ws[i] == ws[1..][i - 1];
        None
      case Some(i) => Some(i + 1)
  }

  function RetryAfter(w: Window, now: nat): nat {
    var left := if w.expiresAt > now then w.expiresAt - now else 0;
    if left < MAX_RETRY_AFTER_MS then left else MAX_RETRY_AFTER_MS
  }

  /** What one handshake does to the windows, and its answer. */
  datatype Outcome = Outcome(windows: seq<Window>, answer: Answer)

  function Consume(limits: Limits, ws: seq<Window>, owner: string, now: nat): Outcome {
    var live := Evict(ws, now);
    match Find(live, owner)
    case Some(i) =>
      if live[i].count >= limits.perWindow then Outcome(live, RateFull(RetryAfter(live[i], now)))
      else Outcome(live[i := live[i].(count := live[i].count + 1)], Admitted)
    case None =>
      if |live| >= limits.maxOwners then Outcome(live, OwnersFull)
      else Outcome(live + [Window(owner, 1, now + limits.windowMs)], Admitted)
  }

  class HandshakeLimiter {
    const limits: Limits
    var windows: seq<Window>

    constructor (limits: Limits)
      ensures this.limits == limits && windows == []
    {
      this.limits, windows := limits, [];
    }

    method ConsumeHandshake(owner: string, now: nat) returns (answer: Answer)
      modifies this
      ensures Outcome(windows, answer) == Consume(limits, old(windows), owner, now)
    {
      while windows != [] && windows[0].expiresAt <= now
        invariant Evict(windows, now) == Evict(old(windows), now)
        decreases |windows|
      {
        windows := windows[1..];
      }
      var current := Find(windows, owner);
      if current.Some? {
        var i := current.value;
        if windows[i].count >= limits.perWindow { return RateFull(RetryAfter(windows[i], now)); }
        windows := windows[i := windows[i].(count := windows[i].count + 1)];
        return Admitted;
      }
      if |windows| >= limits.maxOwners { return OwnersFull; }
      windows := windows + [Window(owner, 1, now + limits.windowMs)];
      return Admitted;
    }
  }

  // ---------------------------------------------------------------------- runs

  datatype Call = Call(owner: string, now: nat)

  /** One admitted handshake, with the time its window was opened. */
  datatype Admission = Admission(owner: string, time: nat, since: int)

  datatype History = History(windows: seq<Window>, admitted: seq<Admission>)

  function OpenedAt(limits: Limits, w: Window): int {
    w.expiresAt - limits.windowMs
  }

  /** The windows and the admissions after some calls. */
  ghost function After(limits: Limits, calls: seq<Call>): History {
    if calls == [] then History([], [])
    else
      Next(limits, After(limits, calls[..|calls| - 1]), calls[|calls| - 1])
  }

  /** An admission belongs to its owner's open window, or opens one. */
  function Admitting(limits: Limits, ws: seq<Window>, c: Call): Admission {
    var at := Find(ws, c.owner);
    Admission(c.owner, c.now, if at.Some? then OpenedAt(limits, ws[at.value]) else c.now)
  }

  predicate ClockForward(calls: seq<Call>) {
    forall i, j | 0 <= i < j < |calls| :: calls[i].now <= calls[j].now
  }

  function Clock(calls: seq<Call>): nat {
    if calls == [] then 0 else calls[|calls| - 1].now
  }

  predicate Positive(limits: Limits) {
    limits.perWindow > 0 && limits.windowMs > 0 && limits.maxOwners > 0
  }

  // -------------------------------------------------------------- what is kept

  /** The windows themselves: one per owner, in order of expiry, none counted past its limit. */
  predicate Kept(limits: Limits, ws: seq<Window>, clock: nat) {
    && |ws| <= limits.maxOwners
    && Orderly(ws)
    && (forall w | w in ws :: 1 <= w.count <= limits.perWindow && clock < w.expiresAt <= clock + limits.windowMs)
  }

  /** Admissions counted in the window of an owner opened at a time. */
  function InWindow(admitted: seq<Admission>, owner: string, since: int): set<nat> {
    set i: nat | i < |admitted| && admitted[i].owner == owner && admitted[i].since == since
  }

  /** Admissions lie in their windows, and windows of one owner do not overlap. */
  predicate Apart(limits: Limits, admitted: seq<Admission>, clock: nat) {
    && (forall a | a in admitted :: a.since <= a.time < a.since + limits.windowMs && a.time <= clock)
    && (forall a, b | a in admitted && b in admitted && a.owner == b.owner ::
          a.since == b.since || a.since + limits.windowMs <= b.since || b.since + limits.windowMs <= a.since)
  }

  /** A window that admitted is over, or open still; an open one is its owner's last. */
  ghost predicate Covered(limits: Limits, h: History, clock: nat) {
    && (forall a | a in h.admitted :: a.since + limits.windowMs <= clock || Open(limits, h.windows, a.owner, a.since))
    && (forall w, a | w in h.windows && a in h.admitted && a.owner == w.owner ::
          a.since == OpenedAt(limits, w) || a.since + limits.windowMs <= OpenedAt(limits, w))
  }

  /** No window admitted past its limit, and an open window knows how many it admitted. */
  ghost predicate Counted(limits: Limits, h: History) {
    && (forall owner, since :: |InWindow(h.admitted, owner, since)| <= limits.perWindow)
    && (forall w | w in h.windows :: |InWindow(h.admitted, w.owner, OpenedAt(limits, w))| == w.count)
  }

  predicate Open(limits: Limits, ws: seq<Window>, owner: string, since: int) {
    exists w :: w in ws && w.owner == owner && OpenedAt(limits, w) == since
  }

  lemma {:induction false} UnexpiredMembers(ws: seq<Window>, now: nat)
    ensures forall w :: w in Unexpired(ws, now) <==> w in ws && w.expiresAt > now
  {
    if ws != [] {
      UnexpiredMembers(ws[1..], now);
      assert ws == [ws[0]] + ws[1..];
    }
  }

  predicate Orderly(ws: seq<Window>) {
    ByExpiry(ws) && forall i, j | 0 <= i < j < |ws| :: ws[i].owner != ws[j].owner
  }

  lemma EvictOrderly(ws: seq<Window>, now: nat)
    requires Orderly(ws)
    ensures Orderly(Evict(ws, now)) && |Evict(ws, now)| <= |ws|
  {
    hide Evict;
    var k := EvictIsSuffix(ws, now);
    assert forall i | 0 <= i < |ws| - k :: ws[k..][i] == ws[k + i];
  }

  lemma EvictKeeps(limits: Limits, ws: seq<Window>, clock: nat, now: nat)
    requires Kept(limits, ws, clock) && clock <= now
    ensures Kept(limits, Evict(ws, now), now)
    ensures forall w :: w in Evict(ws, now) <==> w in ws && w.expiresAt > now
  {
    EvictOrderly(ws, now);
    FrontEvictionIsFull(ws, now);
    UnexpiredMembers(ws, now);
  }

  lemma CountingKeeps(limits: Limits, ws: seq<Window>, now: nat, i: nat)
    requires Kept(limits, ws, now) && i < |ws| && ws[i].count < limits.perWindow
    ensures Kept(limits, ws[i := ws[i].(count := ws[i].count + 1)], now)
  {
    var counted := ws[i := ws[i].(count := ws[i].count + 1)];
    forall w | w in counted
      ensures 1 <= w.count <= limits.perWindow && now < w.expiresAt <= now + limits.windowMs
    {
      var j :| 0 <= j < |counted| && counted[j] == w;
      assert ws[j] in ws;
    }
  }

  lemma OpeningKeeps(limits: Limits, ws: seq<Window>, now: nat, owner: string)
    requires Positive(limits) && Kept(limits, ws, now) && |ws| < limits.maxOwners
    requires forall i | 0 <= i < |ws| :: ws[i].owner != owner
    ensures Kept(limits, ws + [Window(owner, 1, now + limits.windowMs)], now)
  {
    assert forall i | 0 <= i < |ws| :: ws[i] in ws;
  }

  /** The windows stay one per owner and in order of expiry. */
  lemma ConsumeKeeps(limits: Limits, ws: seq<Window>, clock: nat, c: Call)
    requires Positive(limits) && Kept(limits, ws, clock) && clock <= c.now
    ensures Kept(limits, Consume(limits, ws, c.owner, c.now).windows, c.now)
  {
    hide Kept, Evict, Find, RetryAfter;
    EvictKeeps(limits, ws, clock, c.now);
    var live := Evict(ws, c.now);
    var at := Find(live, c.owner);
    if at.None? {
      if |live| < limits.maxOwners { OpeningKeeps(limits, live, c.now, c.owner); }
    } else if live[at.value].count < limits.perWindow {
      CountingKeeps(limits, live, c.now, at.value);
    }
  }

  lemma InWindowMore(admitted: seq<Admission>, a: Admission, owner: string, since: int)
    ensures InWindow(admitted + [a], owner, since) ==
            InWindow(admitted, owner, since) + (if a.owner == owner && a.since == since then {|admitted|} else {})
    ensures |InWindow(admitted + [a], owner, since)| ==
            |InWindow(admitted, owner, since)| + (if a.owner == owner && a.since == since then 1 else 0)
  {
    forall i: nat
      ensures i in InWindow(admitted + [a], owner, since) <==>
              i in InWindow(admitted, owner, since) +
                   (if a.owner == owner && a.since == since then {|admitted|} else {})
    {
    }
  }

  lemma EvictCovered(limits: Limits, h: History, clock: nat, now: nat)
    requires Kept(limits, h.windows, clock) && clock <= now && Covered(limits, h, clock) && Counted(limits, h)
    ensures Covered(limits, h.(windows := Evict(h.windows, now)), now)
    ensures Counted(limits, h.(windows := Evict(h.windows, now)))
  {
    EvictKeeps(limits, h.windows, clock, now);
    var live := Evict(h.windows, now);
    forall a | a in h.admitted
      ensures a.since + limits.windowMs <= now || Open(limits, live, a.owner, a.since)
    {
      if a.since + limits.windowMs > now {
        var w :| w in h.windows && w.owner == a.owner && OpenedAt(limits, w) == a.since;
        assert w in live;
      }
    }
  }

  /** One more admission in an open window. */
  lemma CountMore(limits: Limits, h: History, now: nat, i: nat)
    requires Kept(limits, h.windows, now) && i < |h.windows| && h.windows[i].count < limits.perWindow
    requires Apart(limits, h.admitted, now) && Covered(limits, h, now) && Counted(limits, h)
    ensures var w := h.windows[i];
            var a := Admission(w.owner, now, OpenedAt(limits, w));
            var more := History(h.windows[i := w.(count := w.count + 1)], h.admitted + [a]);
            Apart(limits, more.admitted, now) && Covered(limits, more, now) && Counted(limits, more)
  {
    var w := h.windows[i];
    var a := Admission(w.owner, now, OpenedAt(limits, w));
    var more := History(h.windows[i := w.(count := w.count + 1)], h.admitted + [a]);
    assert w in h.windows;
    assert Apart(limits, more.admitted, now);
    MoreCovered(limits, h, now, i, a);
    MoreCounted(limits, h, i, a);
  }

  lemma MoreCovered(limits: Limits, h: History, now: nat, i: nat, a: Admission)
    requires Kept(limits, h.windows, now) && i < |h.windows| && Covered(limits, h, now)
    requires a.owner == h.windows[i].owner && a.since == OpenedAt(limits, h.windows[i])
    ensures var w := h.windows[i];
            Covered(limits, History(h.windows[i := w.(count := w.count + 1)], h.admitted + [a]), now)
  {
    hide Kept, Open;
    var w := h.windows[i];
    var ws := h.windows[i := w.(count := w.count + 1)];
    assert w in h.windows;
    assert Open(limits, h.windows, a.owner, a.since) by { IsOpen(limits, h.windows, w); }
    forall b | b in h.admitted + [a]
      ensures b.since + limits.windowMs <= now || Open(limits, ws, b.owner, b.since)
    {
      StaysOpen(limits, h.windows, i, b.owner, b.since);
    }
    forall x, b | x in ws && b in h.admitted + [a] && b.owner == x.owner
      ensures b.since == OpenedAt(limits, x) || b.since + limits.windowMs <= OpenedAt(limits, x)
    {
      var j :| 0 <= j < |ws| && ws[j] == x;
      var y := h.windows[j];
      assert y in h.windows && y.owner == x.owner && OpenedAt(limits, y) == OpenedAt(limits, x);
      if b == a { OneWindowEach(limits, h.windows, now, i, j); }
    }
  }

  lemma IsOpen(limits: Limits, ws: seq<Window>, w: Window)
    requires w in ws
    ensures Open(limits, ws, w.owner, OpenedAt(limits, w))
  {
  }

  lemma OneWindowEach(limits: Limits, ws: seq<Window>, now: nat, i: nat, j: nat)
    requires Kept(limits, ws, now) && i < |ws| && j < |ws| && ws[i].owner == ws[j].owner
    ensures i == j
  {
  }

  /** Counting leaves open what was. */
  lemma StaysOpen(limits: Limits, ws: seq<Window>, i: nat, owner: string, since: int)
    requires i < |ws|
    ensures Open(limits, ws, owner, since) ==>
              Open(limits, ws[i := ws[i].(count := ws[i].count + 1)], owner, since)
  {
    if Open(limits, ws, owner, since) {
      var counted := ws[i := ws[i].(count := ws[i].count + 1)];
      var x :| x in ws && x.owner == owner && OpenedAt(limits, x) == since;
      var j :| 0 <= j < |ws| && ws[j] == x;
      assert counted[j] in counted && counted[j].owner == owner && OpenedAt(limits, counted[j]) == since;
    }
  }

  lemma MoreCounted(limits: Limits, h: History, i: nat, a: Admission)
    requires Orderly(h.windows) && i < |h.windows| && h.windows[i].count < limits.perWindow && Counted(limits, h)
    requires a.owner == h.windows[i].owner && a.since == OpenedAt(limits, h.windows[i])
    ensures var w := h.windows[i];
            Counted(limits, History(h.windows[i := w.(count := w.count + 1)], h.admitted + [a]))
  {
    hide InWindow;
    var w := h.windows[i];
    var ws := h.windows[i := w.(count := w.count + 1)];
    assert w in h.windows;
    forall owner, since
      ensures |InWindow(h.admitted + [a], owner, since)| <= limits.perWindow
    {
      InWindowMore(h.admitted, a, owner, since);
    }
    forall x | x in ws
      ensures |InWindow(h.admitted + [a], x.owner, OpenedAt(limits, x))| == x.count
    {
      var j :| 0 <= j < |ws| && ws[j] == x;
      InWindowMore(h.admitted, a, x.owner, OpenedAt(limits, x));
      assert h.windows[j] in h.windows;
    }
  }

  /** The first admission of a new window. */
  lemma OpenNew(limits: Limits, h: History, now: nat, owner: string)
    requires Positive(limits) && Find(h.windows, owner).None?
    requires Apart(limits, h.admitted, now) && Covered(limits, h, now) && Counted(limits, h)
    ensures var more := History(h.windows + [Window(owner, 1, now + limits.windowMs)],
                                h.admitted + [Admission(owner, now, now)]);
            Apart(limits, more.admitted, now) && Covered(limits, more, now) && Counted(limits, more)
  {
    hide Apart, Covered, Counted, Find;
    EarlierOver(limits, h, now, owner);
    NewApart(limits, h.admitted, now, owner);
    NewCovered(limits, h, now, owner);
    NewCounted(limits, h, now, owner);
  }

  lemma EarlierOver(limits: Limits, h: History, now: nat, owner: string)
    requires Find(h.windows, owner).None? && Covered(limits, h, now)
    ensures forall b | b in h.admitted && b.owner == owner :: b.since + limits.windowMs <= now
  {
    forall b | b in h.admitted && b.owner == owner
      ensures b.since + limits.windowMs <= now
    {
      NotOpen(limits, h.windows, owner, b.since);
    }
  }

  lemma NewApart(limits: Limits, admitted: seq<Admission>, now: nat, owner: string)
    requires Positive(limits) && Apart(limits, admitted, now)
    requires forall b | b in admitted && b.owner == owner :: b.since + limits.windowMs <= now
    ensures Apart(limits, admitted + [Admission(owner, now, now)], now)
  {
  }

  lemma NewCovered(limits: Limits, h: History, now: nat, owner: string)
    requires Covered(limits, h, now) && Find(h.windows, owner).None?
    requires forall b | b in h.admitted && b.owner == owner :: b.since + limits.windowMs <= now
    ensures Covered(limits, History(h.windows + [Window(owner, 1, now + limits.windowMs)],
                                    h.admitted + [Admission(owner, now, now)]), now)
  {
    var w := Window(owner, 1, now + limits.windowMs);
    var ws := h.windows + [w];
    forall o, since | Open(limits, h.windows, o, since)
      ensures Open(limits, ws, o, since)
    {
      var x :| x in h.windows && x.owner == o && OpenedAt(limits, x) == since;
      assert x in ws;
    }
    assert w in ws && Open(limits, ws, owner, now);
  }

  lemma NotOpen(limits: Limits, ws: seq<Window>, owner: string, since: int)
    requires Find(ws, owner).None?
    ensures !Open(limits, ws, owner, since)
  {
  }

  lemma NewCounted(limits: Limits, h: History, now: nat, owner: string)
    requires Positive(limits) && Find(h.windows, owner).None? && Counted(limits, h)
    requires forall b | b in h.admitted && b.owner == owner :: b.since + limits.windowMs <= now
    ensures Counted(limits, History(h.windows + [Window(owner, 1, now + limits.windowMs)],
                                    h.admitted + [Admission(owner, now, now)]))
  {
    var w, a := Window(owner, 1, now + limits.windowMs), Admission(owner, now, now);
    assert InWindow(h.admitted, owner, now) == {};
    forall o, since
      ensures |InWindow(h.admitted + [a], o, since)| <= limits.perWindow
    {
      InWindowMore(h.admitted, a, o, since);
    }
    forall x | x in h.windows + [w]
      ensures |InWindow(h.admitted + [a], x.owner, OpenedAt(limits, x))| == x.count
    {
      InWindowMore(h.admitted, a, x.owner, OpenedAt(limits, x));
    }
  }

  // ------------------------------------------------------------------ theorems

  ghost predicate Holds(limits: Limits, h: History, clock: nat) {
    && Kept(limits, h.windows, clock)
    && Apart(limits, h.admitted, clock)
    && Covered(limits, h, clock)
    && Counted(limits, h)
  }

  /** One call, from any history. */
  ghost function Next(limits: Limits, h: History, c: Call): History {
    var out := Consume(limits, h.windows, c.owner, c.now);
    History(out.windows,
            if out.answer.Admitted? then h.admitted + [Admitting(limits, Evict(h.windows, c.now), c)] else h.admitted)
  }

  lemma LiveHolds(limits: Limits, h: History, clock: nat, now: nat)
    requires Holds(limits, h, clock) && clock <= now
    ensures Holds(limits, h.(windows := Evict(h.windows, now)), now)
  {
    hide Kept, Apart, Covered, Counted;
    EvictKeeps(limits, h.windows, clock, now);
    EvictCovered(limits, h, clock, now);
    LaterApart(limits, h.admitted, clock, now);
  }

  lemma NextHolds(limits: Limits, h: History, clock: nat, c: Call)
    requires Positive(limits) && Holds(limits, h, clock) && clock <= c.now
    ensures Holds(limits, Next(limits, h, c), c.now)
  {
    hide Kept, Apart, Covered, Counted, Evict, Find, OpenedAt;
    ConsumeKeeps(limits, h.windows, clock, c);
    LiveHolds(limits, h, clock, c.now);
    var live := h.(windows := Evict(h.windows, c.now));
    var at := Find(live.windows, c.owner);
    if at.None? {
      OpenNew(limits, live, c.now, c.owner);
    } else if live.windows[at.value].count < limits.perWindow {
      CountMore(limits, live, c.now, at.value);
    }
  }

  lemma LaterApart(limits: Limits, admitted: seq<Admission>, clock: nat, now: nat)
    requires Apart(limits, admitted, clock) && clock <= now
    ensures Apart(limits, admitted, now)
  {
  }

  lemma {:induction false} AlwaysHolds(limits: Limits, calls: seq<Call>)
    requires Positive(limits) && ClockForward(calls)
    ensures Holds(limits, After(limits, calls), Clock(calls))
  {
    if calls != [] {
      var before := calls[..|calls| - 1];
      AlwaysHolds(limits, before);
      NextHolds(limits, After(limits, before), Clock(before), calls[|calls| - 1]);
    }
  }

  /** With a clock that does not go back, front eviction always removes exactly the expired windows. */
  lemma EvictionIsExact(limits: Limits, calls: seq<Call>, now: nat)
    requires Positive(limits) && ClockForward(calls)
    ensures Evict(After(limits, calls).windows, now) == Unexpired(After(limits, calls).windows, now)
  {
    AlwaysHolds(limits, calls);
    FrontEvictionIsFull(After(limits, calls).windows, now);
  }

  /** Tracked owners never exceed their cap, and no window admits more than its limit. */
  lemma LimitsAreKept(limits: Limits, calls: seq<Call>, owner: string, since: int)
    requires Positive(limits) && ClockForward(calls)
    ensures |After(limits, calls).windows| <= limits.maxOwners
    ensures |InWindow(After(limits, calls).admitted, owner, since)| <= limits.perWindow
  {
    AlwaysHolds(limits, calls);
  }

  // ------------------------------------------------------------ who is admitted

  /** The window an admission belongs to is not over. */
  predicate Current(limits: Limits, a: Admission, now: nat) {
    now < a.since + limits.windowMs
  }

  /** Owners with a window that is not over. */
  function BusyOwners(limits: Limits, admitted: seq<Admission>, now: nat): set<string> {
    set a | a in admitted && Current(limits, a, now) :: a.owner
  }

  /**
   * What a handshake is told, going only by who was admitted and when. An owner
   * whose window is not over is admitted while that window has admitted fewer than
   * its limit, and is otherwise told how long the window lasts, up to a cap; any
   * other owner is admitted while fewer owners than the cap have such a window.
   */
  ghost predicate IsAnswer(limits: Limits, admitted: seq<Admission>, c: Call, answer: Answer) {
    && (c.owner !in BusyOwners(limits, admitted, c.now) ==>
          answer == if |BusyOwners(limits, admitted, c.now)| < limits.maxOwners then Admitted else OwnersFull)
    && forall a | a in admitted && a.owner == c.owner && Current(limits, a, c.now) ::
         var left := a.since + limits.windowMs - c.now;
         answer == if |InWindow(admitted, c.owner, a.since)| < limits.perWindow then Admitted
                   else RateFull(if left < 30_000 then left else 30_000)
  }

  /** An admission joins its owner's window if that is not over, and otherwise opens one. */
  ghost predicate Joins(limits: Limits, admitted: seq<Admission>, c: Call, a: Admission) {
    && a.owner == c.owner && a.time == c.now
    && (c.owner !in BusyOwners(limits, admitted, c.now) ==> a.since == c.now)
    && forall b | b in admitted && b.owner == c.owner && Current(limits, b, c.now) :: a.since == b.since
  }

  lemma {:induction false} OwnersOf(ws: seq<Window>)
    requires forall i, j | 0 <= i < j < |ws| :: ws[i].owner != ws[j].owner
    ensures |set w | w in ws :: w.owner| == |ws|
  {
    if ws != [] {
      var rest := ws[..|ws| - 1];
      OwnersOf(rest);
      var last := ws[|ws| - 1];
      assert ws == rest + [last];
      assert (set w | w in ws :: w.owner) == (set w | w in rest :: w.owner) + {last.owner};
    }
  }

  /** A window has an admission to show for it. */
  lemma WindowHasAdmission(limits: Limits, h: History, now: nat, w: Window) returns (a: Admission)
    requires Holds(limits, h, now) && w in h.windows
    ensures a in h.admitted && a.owner == w.owner && a.since == OpenedAt(limits, w) && Current(limits, a, now)
  {
    var there := InWindow(h.admitted, w.owner, OpenedAt(limits, w));
    assert |there| == w.count && w.count >= 1;
    var i :| i in there;
    a := h.admitted[i];
  }

  /** An admission whose window is not over has that window. */
  lemma AdmissionHasWindow(limits: Limits, h: History, now: nat, a: Admission) returns (w: Window)
    requires Holds(limits, h, now) && a in h.admitted && Current(limits, a, now)
    ensures w in h.windows && a.owner == w.owner && a.since == OpenedAt(limits, w)
  {
    assert Open(limits, h.windows, a.owner, a.since);
    w :| w in h.windows && w.owner == a.owner && OpenedAt(limits, w) == a.since;
  }

  lemma BusyAreTheWindows(limits: Limits, h: History, now: nat)
    requires Holds(limits, h, now)
    ensures BusyOwners(limits, h.admitted, now) == (set w | w in h.windows :: w.owner)
    ensures |BusyOwners(limits, h.admitted, now)| == |h.windows|
  {
    hide Current;
    var owners := set w | w in h.windows :: w.owner;
    forall owner
      ensures owner in BusyOwners(limits, h.admitted, now) <==> owner in owners
    {
      if a :| a in h.admitted && Current(limits, a, now) && a.owner == owner {
        var w := AdmissionHasWindow(limits, h, now, a);
      }
      if w :| w in h.windows && w.owner == owner {
        var a := WindowHasAdmission(limits, h, now, w);
      }
    }
    OwnersOf(h.windows);
  }

  lemma LiveAnswer(limits: Limits, live: History, c: Call)
    requires Holds(limits, live, c.now)
    ensures var at := Find(live.windows, c.owner);
            var answer :=
              if at.None? then if |live.windows| >= limits.maxOwners then OwnersFull else Admitted
              else if live.windows[at.value].count >= limits.perWindow
              then RateFull(RetryAfter(live.windows[at.value], c.now))
              else Admitted;
            && IsAnswer(limits, live.admitted, c, answer)
            && Joins(limits, live.admitted, c, Admitting(limits, live.windows, c))
  {
    hide Holds, Find, Current, InWindow;
    BusyAreTheWindows(limits, live, c.now);
    var at := Find(live.windows, c.owner);
    if at.Some? {
      var w := live.windows[at.value];
      var b := WindowHasAdmission(limits, live, c.now, w);
      assert c.owner in BusyOwners(limits, live.admitted, c.now);
      forall a | a in live.admitted && a.owner == c.owner && Current(limits, a, c.now)
        ensures a.since == OpenedAt(limits, w) && |InWindow(live.admitted, c.owner, a.since)| == w.count
      {
        OwnWindow(limits, live, c.now, a, at.value);
      }
    } else {
      forall a | a in live.admitted && Current(limits, a, c.now)
        ensures a.owner != c.owner
      {
        var w := AdmissionHasWindow(limits, live, c.now, a);
      }
    }
  }

  lemma OwnWindow(limits: Limits, h: History, now: nat, a: Admission, i: nat)
    requires Holds(limits, h, now) && a in h.admitted && Current(limits, a, now)
    requires i < |h.windows| && h.windows[i].owner == a.owner
    ensures a.since == OpenedAt(limits, h.windows[i])
    ensures |InWindow(h.admitted, a.owner, a.since)| == h.windows[i].count
  {
    hide InWindow;
    var w := AdmissionHasWindow(limits, h, now, a);
    var j :| 0 <= j < |h.windows| && h.windows[j] == w;
    assert i == j;
  }

  /** After any calls, the answer to the next one is the one the admissions call for. */
  lemma AnswersFollowAdmissions(limits: Limits, calls: seq<Call>, c: Call)
    requires Positive(limits) && ClockForward(calls) && Clock(calls) <= c.now
    ensures var h := After(limits, calls);
            var out := Consume(limits, h.windows, c.owner, c.now);
            && IsAnswer(limits, h.admitted, c, out.answer)
            && var now := After(limits, calls + [c]).admitted;
               if out.answer.Admitted?
               then now != [] && now[..|now| - 1] == h.admitted && Joins(limits, h.admitted, c, now[|now| - 1])
               else now == h.admitted
  {
    hide Holds, Evict, IsAnswer, Joins, Admitting, RetryAfter;
    var h := After(limits, calls);
    AlwaysHolds(limits, calls);
    LiveHolds(limits, h, Clock(calls), c.now);
    LiveAnswer(limits, h.(windows := Evict(h.windows, c.now)), c);
    assert (calls + [c])[..|calls|] == calls;
    assert After(limits, calls + [c]) == Next(limits, h, c);
  }

  /** Admissions of an owner in the half-open interval of one window's length from a time. */
  function During(limits: Limits, admitted: seq<Admission>, owner: string, from: int): set<nat> {
    set i: nat | i < |admitted| && admitted[i].owner == owner && from <= admitted[i].time < from + limits.windowMs
  }

  /** Any interval of one window's length admits at most twice the limit of one owner. */
  lemma AtMostTwice(limits: Limits, calls: seq<Call>, owner: string, from: int)
    requires Positive(limits) && ClockForward(calls)
    ensures |During(limits, After(limits, calls).admitted, owner, from)| <= 2 * limits.perWindow
  {
    hide After, Kept, Covered, Apart, InWindow, During;
    AlwaysHolds(limits, calls);
    AtMostTwoWindows(limits, After(limits, calls).admitted, Clock(calls), owner, from);
  }

  lemma AtMostTwoWindows(limits: Limits, admitted: seq<Admission>, clock: nat, owner: string, from: int)
    requires Apart(limits, admitted, clock)
    requires forall since :: |InWindow(admitted, owner, since)| <= limits.perWindow
    ensures |During(limits, admitted, owner, from)| <= 2 * limits.perWindow
  {
    hide Apart;
    var all := During(limits, admitted, owner, from);
    if i :| i in all {
      var first := InWindow(admitted, owner, admitted[i].since);
      if j :| j in all && j !in first {
        var second := InWindow(admitted, owner, admitted[j].since);
        forall k | k in all
          ensures k in first + second
        {
          TwoWindows(limits, admitted, clock, from, i, j, k);
        }
        Subset(all, first + second);
      } else {
        Subset(all, first);
      }
    }
  }

  /** Three admissions of one owner within one window's length come from at most two windows. */
  lemma TwoWindows(limits: Limits, admitted: seq<Admission>, clock: nat, from: int, i: nat, j: nat, k: nat)
    requires Apart(limits, admitted, clock) && i < |admitted| && j < |admitted| && k < |admitted|
    requires admitted[i].owner == admitted[j].owner == admitted[k].owner
    requires forall x | x in [i, j, k] :: from <= admitted[x].time < from + limits.windowMs
    requires admitted[i].since != admitted[j].since
    ensures admitted[k].since == admitted[i].since || admitted[k].since == admitted[j].since
  {
    var a, b, c := admitted[i], admitted[j], admitted[k];
    assert i in [i, j, k] && j in [i, j, k] && k in [i, j, k];
    assert a in admitted && b in admitted && c in admitted;
  }
}
