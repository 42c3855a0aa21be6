/**
 * A restart that keeps old data on show as fresh, reached by a run of the client
 * and the entry together.
 */
module QueryRestart {
  import opened Basics
  import opened Protocol
  import opened SessionSpec
  import opened SessionExamples
  import opened SessionRuns
  import opened QueryStore
  import opened QueryFreshness

  /** A joint run after which `n` subscriptions are live and the entry is as given. */
  ghost predicate Scene(hs: seq<Happening>, n: nat, e: Entry, id: nat) {
    var j := Joined(AtFirst(), hs);
    CanHappen(AtFirst(), hs) && Calm(Run(AtFirst(), j.ms), n) && j.entry == e && j.subscription == id
  }

  ghost function Client(hs: seq<Happening>): State {
    Run(AtFirst(), Joined(AtFirst(), hs).ms)
  }

  lemma OneMoreHappening(hs: seq<Happening>, h: Happening)
    ensures Joined(AtFirst(), hs + [h]) == Next(AtFirst(), Joined(AtFirst(), hs), h)
    ensures CanHappen(AtFirst(), hs + [h]) <==> CanHappen(AtFirst(), hs) && Happens(AtFirst(), Joined(AtFirst(), hs), h)
  {
    hide Next, Happens, Run;
    assert (hs + [h])[..|hs|] == hs;
  }

  lemma Connects() returns (hs: seq<Happening>)
    ensures Scene(hs, 0, IDLE, 0)
  {
    hide Step, News, Observe;
    var first, second := Moment(CALM, Opened(1)), Moment(CALM, Incoming(1, Welcome("s")));
    var b := AtFirst();
    Begins();
    Opens(Run(b, []));
    OneMoreMoment([], first);
    Welcomes(Run(b, [] + [first]));
    OneMoreMoment([] + [first], second);
    OneMoreHappening([], OfClient(CALM, first.event));
    HearsNothing(IDLE, News(b, [], first, 0));
    hs := [] + [OfClient(CALM, first.event)];
    OneMoreHappening(hs, OfClient(CALM, second.event));
    HearsNothing(IDLE, News(b, [] + [first], second, 0));
    hs := hs + [OfClient(CALM, second.event)];
  }

  lemma SceneSubscribes(hs: seq<Happening>, n: nat, e: Entry, id: nat, s: Signal)
    requires Scene(hs, n, e, id) && n < 2 && SubscribesAnew(e, s) && s.answer.None?
    ensures Scene(hs + [Subscribing(CALM, s)], n + 1, Observe(e, s), n + 1)
    ensures Holding(Client(hs + [Subscribing(CALM, s)]), n + 1, None)
  {
    hide Step, Observe, SubscribesAnew, Accepts;
    var j, m := Joined(AtFirst(), hs), Moment(CALM, Watch(true));
    OneMoreHappening(hs, Subscribing(CALM, s));
    OneMoreMoment(j.ms, m);
    Subscribes(Run(AtFirst(), j.ms), n);
    NotDeliveredYet(Run(AtFirst(), j.ms), n, n + 1);
    assert News(AtFirst(), j.ms, m, n + 1) == [];
  }

  lemma SceneTells(hs: seq<Happening>, n: nat, e: Entry, id: nat, cursor: Option<Cursor>, t: Transition)
    requires Scene(hs, n, e, id) && Holding(Client(hs), id, cursor)
    requires AcceptedTransition(t) && PredecessorMatches(cursor, t) && cursor != Some(t.to)
    ensures var h := OfClient(CALM, Incoming(1, Deliver(id, t)));
            && Scene(hs + [h], n, Observe(e, Signal.Callback(SessionSpec.Callback(t))), id)
            && Holding(Client(hs + [h]), id, Some(t.to))
  {
    hide Step, Observe, SessionSpec.Callback, AcceptedTransition, PredecessorMatches;
    var event := Incoming(1, Deliver(id, t));
    var j, m := Joined(AtFirst(), hs), Moment(CALM, event);
    OneMoreHappening(hs, OfClient(CALM, event));
    OneMoreMoment(j.ms, m);
    Delivers(Run(AtFirst(), j.ms), n, id, cursor, t);
    HearsTheNews(j.entry, News(AtFirst(), j.ms, m, id), SessionSpec.Callback(t));
  }

  lemma SceneUnwatches(hs: seq<Happening>, n: nat, e: Entry, id: nat, cursor: Option<Cursor>)
    requires Scene(hs, n, e, id) && Holding(Client(hs), id, cursor)
    ensures Scene(hs + [OfClient(CALM, Unwatch(id))], n, e, id)
  {
    hide Step, Observe;
    var j, m := Joined(AtFirst(), hs), Moment(CALM, Unwatch(id));
    OneMoreHappening(hs, OfClient(CALM, Unwatch(id)));
    OneMoreMoment(j.ms, m);
    Unwatches(Run(AtFirst(), j.ms), n, id, cursor);
    assert News(AtFirst(), j.ms, m, id) == [];
  }

  lemma HearsTheNews(e: Entry, ds: seq<Delivery>, d: Delivery)
    requires ds == [d]
    ensures Hearing(e, ds) == Observe(e, Signal.Callback(d))
  {
    hide Observe;
    assert ds[..0] == [];
  }

  lemma SceneOwn(hs: seq<Happening>, n: nat, e: Entry, id: nat, s: Signal)
    requires Scene(hs, n, e, id) && !s.Callback? && !SubscribesAnew(e, s)
    ensures Scene(hs + [OfEntry(s)], n, Observe(e, s), id)
    ensures Client(hs + [OfEntry(s)]) == Client(hs)
  {
    hide Run, Observe, SubscribesAnew, Calm;
    OneMoreHappening(hs, OfEntry(s));
  }

  /**
   * A query refused and then granted again is still waiting for a change of
   * principal; when that comes, the entry drops its subscription and begins another,
   * and the old principal's data stays on show as fresh, although the new
   * subscription has said nothing.
   */
  lemma RestartCanKeepSuccess(value: Payload) returns (hs: seq<Happening>, restart: Happening)
    ensures CanHappen(AtFirst(), hs + [restart])
    ensures UpToDate(Joined(AtFirst(), hs).entry) && Joined(AtFirst(), hs).entry.state == Success(value)
    ensures var e := Joined(AtFirst(), hs + [restart]).entry;
            && e.started && e.subscribed && e.state == Success(value) && !UpToDate(e)
  {
    hide Scene, Client, Holding, Run, Joined, CanHappen;
    var c1, c2, c3 := Cursor("g", 1, 0, ""), Cursor("g", 2, 0, ""), Cursor("g", 3, 0, "");
    var denied := Error(Unauthorized, false, None);
    var alice := Authentication(UserPrincipal("i", "a", "a"), 1);
    var bob := Authentication(UserPrincipal("i", "b", "b"), 2);
    hs := Connects();
    var e := Observe(IDLE, Signal.Start(None));
    SceneSubscribes(hs, 0, IDLE, 0, Signal.Start(None));
    hs := hs + [Subscribing(CALM, Signal.Start(None))];
    hs, e := Follows(hs, e, None, Reset(None, c1, "old"));
    hs, e := Follows(hs, e, Some(c1), Revoked(c1, c2, denied));
    SceneOwn(hs, 1, e, 1, Arm(Accepted(alice), Some(alice)));
    hs, e := hs + [OfEntry(Arm(Accepted(alice), Some(alice)))], Observe(e, Arm(Accepted(alice), Some(alice)));
    hs, e := Follows(hs, e, Some(c2), Update(c2, c3, value));
    SceneUnwatches(hs, 1, e, 1, Some(c3));
    hs := hs + [OfClient(CALM, Unwatch(1))];
    restart := Subscribing(CALM, AuthenticationChange(Accepted(bob), None));
    SceneSubscribes(hs, 1, e, 1, restart.signal);
    SceneShows(hs, 1, e, 1);
    SceneShows(hs + [restart], 2, Observe(e, restart.signal), 2);
  }

  lemma SceneShows(hs: seq<Happening>, n: nat, e: Entry, id: nat)
    requires Scene(hs, n, e, id)
    ensures CanHappen(AtFirst(), hs) && Joined(AtFirst(), hs).entry == e
  {
    hide Run, Joined, CanHappen, Calm;
  }

  lemma Follows(hs: seq<Happening>, e: Entry, cursor: Option<Cursor>, t: Transition)
    returns (more: seq<Happening>, after: Entry)
    requires Scene(hs, 1, e, 1) && Holding(Client(hs), 1, cursor)
    requires AcceptedTransition(t) && PredecessorMatches(cursor, t) && cursor != Some(t.to)
    ensures after == Observe(e, Signal.Callback(SessionSpec.Callback(t)))
    ensures Scene(more, 1, after, 1) && Holding(Client(more), 1, Some(t.to))
  {
    hide Scene, Client, Holding, Observe, SessionSpec.Callback, AcceptedTransition, PredecessorMatches;
    SceneTells(hs, 1, e, 1, cursor, t);
    more := hs + [OfClient(CALM, Incoming(1, Deliver(1, t)))];
    after := Observe(e, Signal.Callback(SessionSpec.Callback(t)));
  }
}
