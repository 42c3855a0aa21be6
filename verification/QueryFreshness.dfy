/**
 * A view's live query together with the client that serves it: the callbacks the
 * entry hears are exactly those the client makes for its subscription.
 */
module QueryFreshness {
  import opened Basics
  import opened Protocol
  import opened SessionSpec
  import opened SessionInvariants
  import opened SessionAtoms
  import opened SessionRuns
  import opened SessionTheorems
  import opened QueryStore

  // ------------------------------------------------------------ the joint machine

  /** The client's moments so far, the entry, and the subscription the entry listens to. */
  datatype Joint = Joint(ms: seq<Moment>, entry: Entry, subscription: nat)

  datatype Happening =
    | OfClient(env: Env, event: Event)
    | OfEntry(signal: Signal)
    | Subscribing(env: Env, signal: Signal)

  /** The entry hears some callbacks, one after the other. */
  function Hearing(e: Entry, ds: seq<Delivery>): Entry {
    if ds == [] then e else Observe(Hearing(e, ds[..|ds| - 1]), Signal.Callback(ds[|ds| - 1]))
  }

  /** The callbacks made for a subscription during a moment. */
  ghost function News(b: Beginning, ms: seq<Moment>, m: Moment, id: nat): seq<Delivery> {
    var before, after := Delivered(Run(b, ms).log, id), Delivered(Run(b, ms + [m]).log, id);
    if |before| <= |after| then after[|before|..] else []
  }

  ghost function Next(b: Beginning, j: Joint, h: Happening): Joint {
    match h
    case OfClient(env, event) =>
      var m := Moment(env, event);
      Joint(j.ms + [m], Hearing(j.entry, News(b, j.ms, m, j.subscription)), j.subscription)
    case OfEntry(s) => j.(entry := Observe(j.entry, s))
    case Subscribing(env, s) =>
      var m, id := Moment(env, Watch(true)), Run(b, j.ms).nextId;
      Joint(j.ms + [m], Hearing(Observe(j.entry, s), News(b, j.ms, m, id)), id)
  }

  /** Callbacks come from the client only, and a new subscription is asked of the client, which may refuse it. */
  ghost predicate Happens(b: Beginning, j: Joint, h: Happening) {
    match h
    case OfClient(env, event) => Enabled(Run(b, j.ms), env, event)
    case OfEntry(s) => !s.Callback? && !SubscribesAnew(j.entry, s)
    case Subscribing(env, s) =>
      && SubscribesAnew(j.entry, s) && Enabled(Run(b, j.ms), env, Watch(true))
      && (s.answer.None? <==> Accepts(Run(b, j.ms).(env := env)))
  }

  ghost function Joined(b: Beginning, hs: seq<Happening>): Joint {
    if hs == [] then Joint([], IDLE, 0) else Next(b, Joined(b, hs[..|hs| - 1]), hs[|hs| - 1])
  }

  ghost predicate CanHappen(b: Beginning, hs: seq<Happening>) {
    hs != [] ==> CanHappen(b, hs[..|hs| - 1]) && Happens(b, Joined(b, hs[..|hs| - 1]), hs[|hs| - 1])
  }

  /** What the entry has heard is what the client has delivered to its subscription. */
  ghost predicate InStep(b: Beginning, j: Joint) {
    && Possible(b, j.ms)
    && Backed(j.entry)
    && (j.entry.subscribed ==> j.entry.started && j.entry.heard == Delivered(Run(b, j.ms).log, j.subscription))
  }

  // ------------------------------------------------------------------- in step

  lemma {:induction false} HearsAll(e: Entry, ds: seq<Delivery>)
    requires Backed(e) && Anchored(e.heard + ds)
    requires e.subscribed ==> e.started
    ensures var h := Hearing(e, ds);
            && Backed(h) && h.started == e.started && h.subscribed == e.subscribed
            && h.heard == if e.subscribed then e.heard + ds else e.heard
  {
    hide Backed, Anchored, MayFollow;
    if ds == [] {
      assert e.heard + ds == e.heard;
    } else {
      var n := |ds| - 1;
      assert e.heard + ds == e.heard + ds[..n] + [ds[n]];
      AnchoredPart(e.heard + ds[..n], ds[n]);
      HearsAll(e, ds[..n]);
      HearsOne(Hearing(e, ds[..n]), ds[n]);
    }
  }

  lemma HearsOne(e: Entry, d: Delivery)
    requires Backed(e) && (e.subscribed ==> e.started && MayFollow(e.heard, d))
    ensures var h := Observe(e, Signal.Callback(d));
            && Backed(h) && h.started == e.started && h.subscribed == e.subscribed
            && h.heard == if e.subscribed then e.heard + [d] else e.heard
  {
    hide Backed, MayFollow;
    if e.subscribed { ObserveKeepsBacked(e, Signal.Callback(d)); }
  }

  /** A moment adds its news to what was delivered. */
  lemma NewsAreAdded(b: Beginning, ms: seq<Moment>, m: Moment, id: nat)
    requires Possible(b, ms) && Enabled(Run(b, ms), m.env, m.event)
    ensures Possible(b, ms + [m])
    ensures Delivered(Run(b, ms + [m]).log, id) == Delivered(Run(b, ms).log, id) + News(b, ms, m, id)
    ensures Anchored(Delivered(Run(b, ms).log, id) + News(b, ms, m, id))
  {
    hide Run, Enabled, Anchored;
    assert (ms + [m])[..|ms|] == ms;
    assert Possible(b, ms + [m]);
    RecordGrows(b, ms, [m]);
    CallbacksAreAnchored(b, ms + [m], id);
    var before, after := Delivered(Run(b, ms).log, id), Delivered(Run(b, ms + [m]).log, id);
    assert before <= after;
    assert after == before + after[|before|..];
  }

  lemma NothingDeliveredYet(b: Beginning, ms: seq<Moment>)
    requires Possible(b, ms)
    ensures Delivered(Run(b, ms).log, Run(b, ms).nextId) == []
  {
    hide Possible, Run, Books, Truthful, Chained, Converges, Timers, Flight, Carried, Endings, Admitted, Linked,
         Standing;
    RunInvariant(b, ms);
  }

  lemma OwnSignal(e: Entry, s: Signal)
    requires Backed(e) && !s.Callback? && !SubscribesAnew(e, s) && (e.subscribed ==> e.started)
    ensures var t := Observe(e, s);
            && Backed(t) && t.heard == e.heard && (t.subscribed ==> t.started && e.subscribed)
  {
    ObserveKeepsBacked(e, s);
  }

  lemma NewSubscription(e: Entry, s: Signal)
    requires SubscribesAnew(e, s)
    ensures var t := Observe(e, s);
            Backed(t) && t.heard == [] && t.started && (t.subscribed <==> s.answer.None?)
  {
  }

  lemma HappeningKeepsInStep(b: Beginning, j: Joint, h: Happening)
    requires InStep(b, j) && Happens(b, j, h)
    ensures InStep(b, Next(b, j, h))
  {
    hide Run, Possible, Enabled, Backed, Anchored, News, Observe, SubscribesAnew, Accepts, Hearing;
    match h
    case OfClient(env, event) =>
      var m := Moment(env, event);
      NewsAreAdded(b, j.ms, m, j.subscription);
      if j.entry.subscribed { HearsAll(j.entry, News(b, j.ms, m, j.subscription)); }
      else { HearsNothing(j.entry, News(b, j.ms, m, j.subscription)); }
    case OfEntry(s) => OwnSignal(j.entry, s);
    case Subscribing(env, s) =>
      var m, id := Moment(env, Watch(true)), Run(b, j.ms).nextId;
      NewsAreAdded(b, j.ms, m, id);
      NothingDeliveredYet(b, j.ms);
      NewSubscription(j.entry, s);
      HearsAll(Observe(j.entry, s), News(b, j.ms, m, id));
  }

  lemma {:induction false} HearsNothing(e: Entry, ds: seq<Delivery>)
    requires !e.subscribed
    ensures Hearing(e, ds) == e
  {
    if ds != [] { HearsNothing(e, ds[..|ds| - 1]); }
  }

  /** In every joint run the entry has heard exactly what the client delivered to its subscription. */
  lemma {:induction false} AlwaysInStep(b: Beginning, hs: seq<Happening>)
    requires CanHappen(b, hs)
    ensures InStep(b, Joined(b, hs))
  {
    hide InStep, Happens, Next;
    if hs == [] {
      BeginsInStep(b);
    } else {
      AlwaysInStep(b, hs[..|hs| - 1]);
      HappeningKeepsInStep(b, Joined(b, hs[..|hs| - 1]), hs[|hs| - 1]);
    }
  }

  lemma BeginsInStep(b: Beginning)
    ensures InStep(b, Joint([], IDLE, 0))
  {
    hide Run;
  }

  // ----------------------------------------------------------------- freshness

  lemma {:induction false} TurnedBySubscription(e: Entry, ds: seq<Delivery>) returns (i: nat)
    requires Backed(e) && e.started && e.subscribed && Anchored(e.heard + ds)
    requires !e.state.Success? && Hearing(e, ds).state.Success?
    ensures i < |ds| && !Aside(ds[i])
    ensures LastOutcome(e.heard + ds).Some?
  {
    hide Backed, Anchored, MayFollow, Observe;
    if ds == [] {
      assert false;
    } else {
      var n := |ds| - 1;
      var part := ds[..n];
      assert e.heard + ds == e.heard + part + [ds[n]];
      AnchoredPart(e.heard + part, ds[n]);
      HearsAll(e, part);
      LastOutcomeAppend(e.heard + part, ds[n]);
      if Hearing(e, part).state.Success? {
        i := TurnedBySubscription(e, part);
      } else {
        TurnedNow(Hearing(e, part), ds[n]);
        i := n;
      }
    }
  }

  lemma TurnedNow(e: Entry, d: Delivery)
    requires Backed(e) && e.started && e.subscribed && MayFollow(e.heard, d)
    requires !e.state.Success? && Observe(e, Signal.Callback(d)).state.Success?
    ensures LastOutcome(e.heard + [d]).Some? && !Aside(d)
  {
    hide Backed, MayFollow;
    OnlyCallbacksFreshen(e, Signal.Callback(d));
    ObserveKeepsBacked(e, Signal.Callback(d));
    FreshHasOutcome(e, Signal.Callback(d));
  }

  /** The subscription the entry listens to is a live query of the client. */
  ghost predicate Followed(b: Beginning, j: Joint) {
    j.subscription in Run(b, j.ms).subs && Run(b, j.ms).subs[j.subscription].stream.Outcomes?
  }

  /** A moment in which a query is reported on leaves it followed. */
  lemma NewsAreFollowed(b: Beginning, ms: seq<Moment>, m: Moment, id: nat, i: nat)
    requires Possible(b, ms) && Enabled(Run(b, ms), m.env, m.event)
    requires i < |News(b, ms, m, id)| && !Aside(News(b, ms, m, id)[i])
    ensures id in Run(b, ms + [m]).subs && Run(b, ms + [m]).subs[id].stream.Outcomes?
  {
    hide Run, Possible, Enabled, Inv, Grows;
    RunHolds(b, ms, ArbitraryServer);
    OneMore(b, ms, m, ArbitraryServer, None);
    NewsAreAdded(b, ms, m, id);
    var before := Delivered(Run(b, ms).log, id);
    assert Delivered(Run(b, ms + [m]).log, id)[|before| + i] == News(b, ms, m, id)[i];
  }

  /** Whatever turns an entry to success, its subscription has then said something. */
  lemma TurnsOnlyBySubscription(b: Beginning, j: Joint, h: Happening)
    requires InStep(b, j) && Happens(b, j, h)
    requires !j.entry.state.Success? && Next(b, j, h).entry.state.Success?
    ensures Next(b, j, h).entry.subscribed && LastOutcome(Next(b, j, h).entry.heard).Some?
    ensures Followed(b, Next(b, j, h))
  {
    hide Run, Possible, Enabled, Backed, Anchored, News, Observe, SubscribesAnew, Accepts, Hearing;
    match h
    case OfClient(env, event) =>
      var m := Moment(env, event);
      var news := News(b, j.ms, m, j.subscription);
      NewsAreAdded(b, j.ms, m, j.subscription);
      if j.entry.subscribed {
        HearsAll(j.entry, news);
        var i := TurnedBySubscription(j.entry, news);
        NewsAreFollowed(b, j.ms, m, j.subscription, i);
      } else {
        HearsNothing(j.entry, news);
      }
    case OfEntry(s) => NotTurned(j.entry, s);
    case Subscribing(env, s) =>
      var m, id := Moment(env, Watch(true)), Run(b, j.ms).nextId;
      var news := News(b, j.ms, m, id);
      NewsAreAdded(b, j.ms, m, id);
      NothingDeliveredYet(b, j.ms);
      NewSubscription(j.entry, s);
      NotTurned(j.entry, s);
      HearsAll(Observe(j.entry, s), news);
      if Observe(j.entry, s).subscribed {
        var i := TurnedBySubscription(Observe(j.entry, s), news);
        NewsAreFollowed(b, j.ms, m, id, i);
      } else {
        HearsNothing(Observe(j.entry, s), news);
      }
  }

  lemma NotTurned(e: Entry, s: Signal)
    requires !e.state.Success? && (!s.Callback? || SubscribesAnew(e, s))
    ensures !Observe(e, s).state.Success?
  {
    if Observe(e, s).state.Success? { OnlyCallbacksFreshen(e, s); }
  }

  /**
   * Against an honest server, in every joint run: data shown as a success is the
   * server's value at the cursor the subscription holds, as soon as the current
   * subscription has said anything.
   */
  lemma ShownIsServers(b: Beginning, hs: seq<Happening>, outcome: (nat, Cursor) -> Outcome)
    requires CanHappen(b, hs) && HonestRun(HonestServer(outcome), Joined(b, hs).ms)
    requires var j := Joined(b, hs);
             && j.entry.state.Success? && j.entry.subscribed && LastOutcome(j.entry.heard).Some?
             && Followed(b, j)
    ensures var j := Joined(b, hs);
            var held := Run(b, j.ms).subs[j.subscription].stream.cursor;
            held.Some? && outcome(j.subscription, held.value) == OutcomeValue(j.entry.state.data)
  {
    hide Run, Possible, HonestRun, CanHappen, Joined;
    var j := Joined(b, hs);
    AlwaysInStep(b, hs);
    DeliveredOutcomeIsServers(b, j.ms, outcome, j.subscription);
  }

  /** So whenever a snapshot turns to success, its data is the server's value at the cursor then held. */
  lemma FreshnessIsSound(b: Beginning, hs: seq<Happening>, h: Happening, outcome: (nat, Cursor) -> Outcome)
    requires CanHappen(b, hs + [h]) && HonestRun(HonestServer(outcome), Joined(b, hs + [h]).ms)
    requires !Joined(b, hs).entry.state.Success? && Joined(b, hs + [h]).entry.state.Success?
    ensures Followed(b, Joined(b, hs + [h]))
    ensures var j := Joined(b, hs + [h]);
            var held := Run(b, j.ms).subs[j.subscription].stream.cursor;
            held.Some? && outcome(j.subscription, held.value) == OutcomeValue(j.entry.state.data)
  {
    hide Run, HonestRun, InStep, Happens, Next;
    assert (hs + [h])[..|hs|] == hs;
    AlwaysInStep(b, hs);
    TurnsOnlyBySubscription(b, Joined(b, hs), h);
    ShownIsServers(b, hs + [h], outcome);
  }
}
