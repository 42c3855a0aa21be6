/**
 * One live query as a view observes it: the client's callbacks and connection
 * events folded into a snapshot that says whether its data is fresh, stale or
 * gone, and the restart of a refused query when the principal changes.
 */
module QueryStore {
  import opened Basics
  import opened Protocol
  import opened SessionSpec
  import opened SessionInvariants
  import opened SessionAtoms

  // ----------------------------------------------------------------- snapshots

  datatype QueryState =
    | Pending
    | Success(data: Payload)
    | Declined(reason: Payload)
    | Refused(error: Error)
    | Unavailable(retained: Option<Payload>, error: Error)

  /** Data a snapshot still shows, fresh or stale. */
  function DataOf(s: QueryState): Option<Payload> {
    match s
    case Success(data) => Some(data)
    case Unavailable(retained, _) => retained
    case _ => None
  }

  /** A client error: authoritative refusals clear the data, outages keep it as stale. */
  function AfterError(s: QueryState, error: Error): QueryState {
    if KindOf(error.code).Framework? then QueryState.Refused(error) else QueryState.Unavailable(DataOf(s), error)
  }

  /** The connection left ready. */
  function AfterOutage(s: QueryState, error: Error): QueryState {
    match s
    case Success(data) => QueryState.Unavailable(Some(data), error)
    case Declined(_) => QueryState.Unavailable(None, error)
    case _ => s
  }

  const OUTAGE := Error(Code.Unavailable, true, None)

  // -------------------------------------------------------------- authentication

  datatype Principal =
    | AnonymousPrincipal
    | UserPrincipal(issuer: string, subject: string, identity: string)
    | WorkloadPrincipal(issuer: string, subject: string)

  datatype Authentication = Authentication(principal: Principal, authEpoch: nat)

  datatype AuthenticationState =
    | Authenticating
    | Accepted(authentication: Authentication)
    | RefreshRequired
    | AuthenticationFailed
    | AuthenticationClosed

  predicate SamePrincipal(rejected: Option<Authentication>, accepted: Authentication) {
    if rejected.None? then false
    else
      var a, b := rejected.value.principal, accepted.principal;
      if a.AnonymousPrincipal? || b.AnonymousPrincipal? then a.AnonymousPrincipal? && b.AnonymousPrincipal?
      else if a.UserPrincipal? != b.UserPrincipal? then false
      else if a.issuer != b.issuer || a.subject != b.subject then false
      else !a.UserPrincipal? || !b.UserPrincipal? || a.identity == b.identity
  }

  lemma SamePrincipalIsEquality(rejected: Option<Authentication>, accepted: Authentication)
    ensures SamePrincipal(rejected, accepted) <==> rejected.Some? && rejected.value.principal == accepted.principal
  {
  }

  // ---------------------------------------------------------------------- entry

  /**
   * `heard` is what the current subscription's callbacks have said since it
   * began; `arming` counts the refusals whose deferred arming has not run yet.
   */
  datatype Entry = Entry(
    state: QueryState,
    lastDeclined: Option<Payload>,
    started: bool, subscribed: bool,
    arming: nat, awaiting: bool, rejectedUnder: Option<Authentication>,
    heard: seq<Delivery>)

  /** What can happen to an entry; an `answer` is the client refusing a subscription on the spot. */
  datatype Signal =
    | Start(answer: Option<Error>)
    | Callback(delivery: Delivery)
    | Connection(phase: Phase)
    | Arm(auth: AuthenticationState, current: Option<Authentication>)
    | AuthenticationChange(auth: AuthenticationState, answer: Option<Error>)
    | Stop

  const IDLE := Entry(Pending, None, false, false, 0, false, None, [])

  function OnError(e: Entry, error: Error): Entry {
    e.(lastDeclined := if KindOf(error.code).Framework? then None else e.lastDeclined,
       arming := if error.code.Unauthenticated? || error.code.Unauthorized? then e.arming + 1 else e.arming,
       state := AfterError(e.state, error))
  }

  function OnCursorConfirmed(e: Entry): Entry {
    if !e.state.Unavailable? then e
    else if e.state.retained.Some? then e.(state := Success(e.state.retained.value))
    else if e.lastDeclined.Some? then e.(state := Declined(e.lastDeclined.value))
    else e
  }

  function OnDelivery(e: Entry, d: Delivery): Entry {
    match d
    case Fresh(value) => e.(lastDeclined := None, state := Success(value))
    case Refused(reason) => e.(lastDeclined := Some(reason), state := Declined(reason))
    case Denied(error) => OnError(e, error)
    case Trouble(error) => OnError(e, error)
    case Confirmed => OnCursorConfirmed(e)
    case Happened(_) => e
  }

  /** A new subscription: nothing heard from it yet; a refusal on the spot is an error. */
  function StartQuery(e: Entry, answer: Option<Error>): Entry {
    var begun := e.(heard := [], subscribed := answer.None?);
    if answer.Some? then OnError(begun, answer.value) else begun
  }

  predicate Restarts(e: Entry, auth: AuthenticationState) {
    && e.started && e.awaiting && auth.Accepted?
    && !(SamePrincipal(e.rejectedUnder, auth.authentication)
         && e.rejectedUnder.value.authEpoch == auth.authentication.authEpoch)
  }

  function Observe(e: Entry, s: Signal): Entry {
    match s
    case Start(answer) => if e.started then e else StartQuery(e.(started := true), answer)
    case Callback(d) =>
      if e.started && e.subscribed then OnDelivery(e.(heard := e.heard + [d]), d) else e
    case Connection(phase) =>
      if e.started && !phase.Ready? then e.(state := AfterOutage(e.state, OUTAGE)) else e
    case Arm(auth, current) =>
      if e.arming == 0 then e
      else if !e.started || auth.RefreshRequired? || auth.AuthenticationFailed? || auth.AuthenticationClosed? then
        e.(arming := e.arming - 1)
      else e.(arming := e.arming - 1, awaiting := true, rejectedUnder := current)
    case AuthenticationChange(auth, answer) =>
      if Restarts(e, auth) then StartQuery(e.(awaiting := false, rejectedUnder := None), answer) else e
    case Stop =>
      if e.started
      then e.(started := false, subscribed := false, lastDeclined := None, awaiting := false, rejectedUnder := None)
      else e
  }

  ghost function After(signals: seq<Signal>): Entry {
    if signals == [] then IDLE else Observe(After(signals[..|signals| - 1]), signals[|signals| - 1])
  }

  // ------------------------------------------------------------------- freshness

  /** What the snapshot shows is what the current subscription last said, once it has said anything. */
  predicate Backed(e: Entry) {
    var last := LastOutcome(e.heard);
    last.Some? ==>
      && (DataOf(e.state).Some? ==> last.value == OutcomeValue(DataOf(e.state).value))
      && (e.state.Declined? ==> last.value == OutcomeError(e.state.reason))
      && (e.lastDeclined.Some? ==> last.value == OutcomeError(e.lastDeclined.value))
  }

  lemma ObserveKeepsBacked(e: Entry, s: Signal)
    requires Backed(e)
    requires s.Callback? ==> MayFollow(e.heard, s.delivery)
    ensures Backed(Observe(e, s))
  {
    hide OnDelivery, MayFollow;
    if s.Callback? && e.started && e.subscribed {
      DeliveryKeepsBacked(e, s.delivery);
    }
  }

  lemma DeliveryKeepsBacked(e: Entry, d: Delivery)
    requires Backed(e) && MayFollow(e.heard, d)
    ensures Backed(OnDelivery(e.(heard := e.heard + [d]), d))
  {
    hide LastOutcome;
    LastOutcomeAppend(e.heard, d);
  }

  lemma AnchoredPart(ds: seq<Delivery>, d: Delivery)
    requires Anchored(ds + [d])
    ensures Anchored(ds) && MayFollow(ds, d)
  {
    hide MayFollow;
    assert (ds + [d])[..|ds|] == ds && (ds + [d])[|ds|] == d;
    forall i | 0 <= i < |ds|
      ensures MayFollow(ds[..i], ds[i])
    {
      assert (ds + [d])[..i] == ds[..i] && (ds + [d])[i] == ds[i];
    }
  }

  /** A signal adds at most one callback to what was heard, or begins a new subscription. */
  lemma HeardGrows(e: Entry, s: Signal)
    ensures var h := Observe(e, s).heard;
            h == e.heard || h == [] || (s.Callback? && h == e.heard + [s.delivery])
  {
  }

  lemma {:induction false} BackedAlways(signals: seq<Signal>)
    requires Anchored(After(signals).heard)
    ensures Backed(After(signals))
  {
    if signals != [] {
      var e, s := After(signals[..|signals| - 1]), signals[|signals| - 1];
      hide Observe, Anchored, Backed, MayFollow;
      HeardGrows(e, s);
      if Observe(e, s).heard == [] {
        NothingHeard(Observe(e, s));
      } else if Observe(e, s).heard == e.heard {
        BackedAlways(signals[..|signals| - 1]);
        StillBacked(e, s);
      } else {
        AnchoredPart(e.heard, s.delivery);
        BackedAlways(signals[..|signals| - 1]);
        ObserveKeepsBacked(e, s);
      }
    }
  }

  lemma NothingHeard(e: Entry)
    requires e.heard == []
    ensures Backed(e)
  {
  }

  lemma StillBacked(e: Entry, s: Signal)
    requires Backed(e) && Observe(e, s).heard == e.heard
    ensures Backed(Observe(e, s))
  {
    hide OnDelivery;
    CallbacksLengthen(e, s);
  }

  lemma CallbacksLengthen(e: Entry, s: Signal)
    ensures s.Callback? && e.started && e.subscribed ==> |Observe(e, s).heard| == |e.heard| + 1
  {
  }

  /** The snapshot turned to success, by new data or by confirmation of what it had. */
  predicate TurnsToSuccess(e: Entry, s: Signal) {
    && Observe(e, s).state.Success?
    && (!e.state.Success? || (s.Callback? && s.delivery.Fresh? && e.started && e.subscribed))
  }

  /** Only the subscription's own callbacks make a snapshot fresh. */
  lemma OnlyCallbacksFreshen(e: Entry, s: Signal)
    requires TurnsToSuccess(e, s)
    ensures s.Callback? && (s.delivery.Fresh? || s.delivery.Confirmed?) && e.started && e.subscribed
    ensures Observe(e, s).heard == e.heard + [s.delivery]
  {
  }

  /** Whether this signal reports fresh data or confirms what there is, to an entry that listens. */
  predicate Freshens(e: Entry, s: Signal) {
    s.Callback? && (s.delivery.Fresh? || s.delivery.Confirmed?) && e.started && e.subscribed
  }

  /**
   * Once the connection of a started entry leaves ready, it shows no success,
   * whatever else happens, until its subscription reports fresh data or confirms
   * what there is.
   */
  lemma OutagesEndSuccess(before: seq<Signal>, phase: Phase, later: seq<Signal>)
    requires After(before).started && !phase.Ready?
    requires forall i | 0 <= i < |later| :: !Freshens(After(before + [Connection(phase)] + later[..i]), later[i])
    ensures !After(before + [Connection(phase)] + later).state.Success?
  {
    hide Freshens, Observe;
    AfterMore(before, Connection(phase));
    OutageEndsSuccess(After(before), phase);
    NoSuccessUntilFresh(before + [Connection(phase)], later);
  }

  lemma {:induction false} NoSuccessUntilFresh(cut: seq<Signal>, later: seq<Signal>)
    requires !After(cut).state.Success?
    requires forall i | 0 <= i < |later| :: !Freshens(After(cut + later[..i]), later[i])
    ensures !After(cut + later).state.Success?
    decreases |later|
  {
    hide Freshens, Observe, After;
    if later == [] {
      assert cut + later == cut;
    } else {
      var n := |later| - 1;
      forall i | 0 <= i < n
        ensures !Freshens(After(cut + later[..n][..i]), later[..n][i])
      {
        assert later[..n][..i] == later[..i];
      }
      NoSuccessUntilFresh(cut, later[..n]);
      StaysUnfresh(After(cut + later[..n]), later[n]);
      AfterMore(cut + later[..n], later[n]);
      assert cut + later[..n] + [later[n]] == cut + later;
    }
  }

  lemma AfterMore(signals: seq<Signal>, s: Signal)
    ensures After(signals + [s]) == Observe(After(signals), s)
  {
    hide Observe;
    assert (signals + [s])[..|signals|] == signals;
  }

  lemma OutageEndsSuccess(e: Entry, phase: Phase)
    requires e.started && !phase.Ready?
    ensures !Observe(e, Connection(phase)).state.Success?
  {
  }

  lemma StaysUnfresh(e: Entry, s: Signal)
    requires !e.state.Success? && !Freshens(e, s)
    ensures !Observe(e, s).state.Success?
  {
    if Observe(e, s).state.Success? { OnlyCallbacksFreshen(e, s); }
  }

  lemma FreshHasOutcome(e: Entry, s: Signal)
    requires TurnsToSuccess(e, s) && Backed(Observe(e, s)) && s.Callback? && MayFollow(e.heard, s.delivery)
    requires Observe(e, s).heard == e.heard + [s.delivery]
    ensures Observe(e, s).state.Success?
    ensures LastOutcome(Observe(e, s).heard) == Some(OutcomeValue(Observe(e, s).state.data))
  {
    OnlyCallbacksFreshen(e, s);
    LastOutcomeAppend(e.heard, s.delivery);
  }

  // -------------------------------------------------------------- through an outage

  /** The error a callback brings, if it brings one. */
  function Brings(d: Delivery): Option<Error> {
    match d
    case Denied(error) => Some(error)
    case Trouble(error) => Some(error)
    case _ => None
  }

  /** A failure that refuses nothing. */
  predicate Passing(d: Delivery) {
    Brings(d).Some? && !KindOf(Brings(d).value.code).Framework?
  }

  /** A signal that says nothing about the query's outcome, only perhaps that it cannot be reached. */
  predicate Interrupts(s: Signal) {
    s.Connection? || s.Arm? || (s.Callback? && (s.delivery.Happened? || Passing(s.delivery)))
  }

  /** It says so. */
  predicate Breaks(s: Signal) {
    (s.Connection? && !s.phase.Ready?) || (s.Callback? && Passing(s.delivery))
  }

  /** The entry shows an outcome that a confirmation could bring back. */
  predicate Settled(e: Entry) {
    && e.started && e.subscribed
    && (e.state.Success? || (e.state.Declined? && e.lastDeclined == Some(e.state.reason)))
  }

  /** What stands in place of an outcome: itself, or an outage that keeps its data. */
  predicate Keeps(e: Entry, now: Entry, broken: bool) {
    && now.started && now.subscribed && now.lastDeclined == e.lastDeclined
    && (if broken then now.state.Unavailable? && now.state.retained == DataOf(e.state) else now.state == e.state)
  }

  /**
   * However often a settled query cannot be reached, it keeps its data as stale,
   * and its subscription's confirmation alone brings back exactly what it showed.
   */
  lemma {:induction false} ConfirmationRestores(before: seq<Signal>, cut: seq<Signal>)
    requires Settled(After(before))
    requires forall s | s in cut :: Interrupts(s)
    ensures Keeps(After(before), After(before + cut), exists s :: s in cut && Breaks(s))
    ensures After(before + cut + [Callback(Confirmed)]).state == After(before).state
  {
    hide After, Breaks, Interrupts;
    if cut == [] {
      assert before + cut == before;
    } else {
      var rest, s := cut[..|cut| - 1], cut[|cut| - 1];
      assert cut == rest + [s] && before + cut == before + rest + [s];
      ConfirmationRestores(before, rest);
      AfterMore(before + rest, s);
      KeepsOn(After(before), After(before + rest), exists r :: r in rest && Breaks(r), s);
    }
    AfterMore(before + cut, Callback(Confirmed));
  }

  lemma KeepsOn(e: Entry, now: Entry, broken: bool, s: Signal)
    requires Settled(e) && Keeps(e, now, broken) && Interrupts(s)
    ensures Keeps(e, Observe(now, s), broken || Breaks(s))
  {
  }

  /** The error shown is that of the failure just heard, or the outage's when there was none yet. */
  lemma ErrorShown(before: seq<Signal>, s: Signal)
    requires After(before).started && After(before).subscribed && Breaks(s)
    ensures var e, now := After(before), After(before + [s]).state;
            && (s.Callback? ==> now.Unavailable? && Brings(s.delivery) == Some(now.error))
            && (s.Connection? && (e.state.Success? || e.state.Declined?) ==> now.Unavailable? && now.error == OUTAGE)
            && (s.Connection? && !e.state.Success? && !e.state.Declined? ==> now == e.state)
  {
    AfterMore(before, s);
  }

  /** An authoritative refusal clears the data, and neither outage nor confirmation brings it back. */
  lemma {:induction false} RefusalClears(before: seq<Signal>, refusal: Delivery, later: seq<Signal>)
    requires After(before).started && After(before).subscribed
    requires Brings(refusal).Some? && KindOf(Brings(refusal).value.code).Framework?
    requires forall s | s in later :: s.Connection? || s.Arm? || s == Callback(Confirmed)
    ensures After(before + [Callback(refusal)] + later).state == QueryState.Refused(Brings(refusal).value)
  {
    hide After;
    var cut := before + [Callback(refusal)];
    if later == [] {
      assert cut + later == cut;
      AfterMore(before, Callback(refusal));
    } else {
      var n := |later| - 1;
      RefusalClears(before, refusal, later[..n]);
      assert cut + later == cut + later[..n] + [later[n]];
      AfterMore(cut + later[..n], later[n]);
    }
  }

  /** What the subscription says is shown at once, and can be brought back after an outage. */
  lemma OutcomeIsShown(before: seq<Signal>, d: Delivery)
    requires After(before).started && After(before).subscribed
    ensures var e := After(before + [Callback(d)]);
            && (d.Fresh? ==> e.state == Success(d.value) && Settled(e))
            && (d.Refused? ==> e.state == Declined(d.error) && Settled(e))
  {
    AfterMore(before, Callback(d));
  }

  // ---------------------------------------------------------- starting, restarting

  /** A refusal that another principal might not get. */
  predicate AboutAccess(d: Delivery) {
    Brings(d).Some? && (Brings(d).value.code.Unauthenticated? || Brings(d).value.code.Unauthorized?)
  }

  /** The client will resubscribe by itself, or is finished. */
  predicate LeftToClient(auth: AuthenticationState) {
    auth.RefreshRequired? || auth.AuthenticationFailed? || auth.AuthenticationClosed?
  }

  /**
   * A query refused for lack of access subscribes anew exactly when the server accepts
   * an authentication other than the one it was refused under, unless the client was
   * then about to resubscribe it by itself or finished.
   */
  lemma RestartsExactlyWhen(before: seq<Signal>, refusal: Delivery, auth: AuthenticationState,
                            current: Option<Authentication>, next: AuthenticationState, answer: Option<Error>)
    requires var e := After(before); e.started && e.subscribed && e.arming == 0 && !e.awaiting
    requires AboutAccess(refusal)
    ensures var cut := before + [Callback(refusal), Arm(auth, current)];
            var e, t := After(cut), After(cut + [AuthenticationChange(next, answer)]);
            if !LeftToClient(auth) && next.Accepted? && current != Some(next.authentication)
            then t.heard == [] && t.subscribed == answer.None? && !t.awaiting
                 && t.state == if answer.Some? then AfterError(e.state, answer.value) else e.state
            else t == e
  {
    hide After, Observe, AfterError, AboutAccess;
    var cut := before + [Callback(refusal), Arm(auth, current)];
    assert cut == before + [Callback(refusal)] + [Arm(auth, current)];
    AfterMore(before, Callback(refusal));
    AfterMore(before + [Callback(refusal)], Arm(auth, current));
    AfterMore(cut, AuthenticationChange(next, answer));
    RefusalArms(After(before), refusal, auth, current);
    ChangeRestarts(After(cut), next, answer);
  }

  /** A refusal for lack of access is remembered with the authentication it was made under. */
  lemma RefusalArms(e: Entry, refusal: Delivery, auth: AuthenticationState, current: Option<Authentication>)
    requires e.started && e.subscribed && e.arming == 0 && !e.awaiting && AboutAccess(refusal)
    ensures var t := Observe(Observe(e, Callback(refusal)), Arm(auth, current));
            t.started && t.awaiting == !LeftToClient(auth) && (t.awaiting ==> t.rejectedUnder == current)
  {
    hide AfterError;
    var t := Observe(e, Callback(refusal));
    assert t.started && t.arming == 1 && !t.awaiting;
  }

  /** A change that is awaited restarts the query exactly when it is one. */
  lemma ChangeRestarts(e: Entry, next: AuthenticationState, answer: Option<Error>)
    requires e.started
    ensures var t := Observe(e, AuthenticationChange(next, answer));
            if e.awaiting && next.Accepted? && e.rejectedUnder != Some(next.authentication)
            then t.heard == [] && t.subscribed == answer.None? && !t.awaiting
                 && t.state == if answer.Some? then AfterError(e.state, answer.value) else e.state
            else t == e
  {
    hide AfterError;
    if next.Accepted? { SamePrincipalIsEquality(e.rejectedUnder, next.authentication); }
  }

  /**
   * A stopped entry keeps what it shows and hears nothing; started again it has a new
   * subscription and awaits no change.
   */
  lemma {:induction false} StoppedIsDeaf(before: seq<Signal>, later: seq<Signal>, answer: Option<Error>)
    requires forall s | s in later :: !s.Start?
    ensures var stopped := After(before + [Stop] + later);
            && !stopped.started && stopped.state == After(before).state && !stopped.awaiting
            && var e := After(before + [Stop] + later + [Start(answer)]);
               && e.started && e.subscribed == answer.None? && e.heard == [] && !e.awaiting
               && (answer.None? ==> e.state == After(before).state)
  {
    hide After;
    IdleAwaitsNothing(before);
    NothingHeardWhenStopped(before, later);
    AfterMore(before + [Stop] + later, Start(answer));
  }

  lemma {:induction false} NothingHeardWhenStopped(before: seq<Signal>, later: seq<Signal>)
    requires forall s | s in later :: !s.Start?
    requires After(before).started || !After(before).awaiting
    ensures var stopped := After(before + [Stop] + later);
            !stopped.started && stopped.state == After(before).state && !stopped.awaiting
  {
    hide After;
    if later == [] {
      assert before + [Stop] + later == before + [Stop];
      AfterMore(before, Stop);
    } else {
      var n := |later| - 1;
      NothingHeardWhenStopped(before, later[..n]);
      assert before + [Stop] + later == before + [Stop] + later[..n] + [later[n]];
      AfterMore(before + [Stop] + later[..n], later[n]);
    }
  }

  /** An entry that is not started awaits nothing and has no subscription. */
  lemma {:induction false} IdleAwaitsNothing(signals: seq<Signal>)
    ensures var e := After(signals); !e.started ==> !e.awaiting && !e.subscribed && e.lastDeclined.None?
  {
    hide Observe;
    if signals != [] {
      var n := |signals| - 1;
      IdleAwaitsNothing(signals[..n]);
      StaysIdle(After(signals[..n]), signals[n]);
    }
  }

  lemma StaysIdle(e: Entry, s: Signal)
    requires !e.started ==> !e.awaiting && !e.subscribed && e.lastDeclined.None?
    ensures var t := Observe(e, s); !t.started ==> !t.awaiting && !t.subscribed && t.lastDeclined.None?
  {
  }

  // ---------------------------------------------------- success across a restart

  /** The snapshot is in success, with what its subscription last said. */
  predicate UpToDate(e: Entry) {
    e.state.Success? && LastOutcome(e.heard) == Some(OutcomeValue(e.state.data))
  }

  /** This signal makes the entry subscribe anew. */
  predicate SubscribesAnew(e: Entry, s: Signal) {
    (s.Start? && !e.started) || (s.AuthenticationChange? && Restarts(e, s.auth))
  }

  /**
   * A success that is what the subscription last said stays so, as long as it is
   * shown, if and only if the entry does not subscribe anew.
   */
  lemma StaysUpToDateExactlyWhen(e: Entry, s: Signal)
    requires UpToDate(e) && Observe(e, s).state.Success?
    requires s.Callback? ==> MayFollow(e.heard, s.delivery)
    ensures UpToDate(Observe(e, s)) <==> !SubscribesAnew(e, s)
  {
    if s.Callback? && e.started && e.subscribed { LastOutcomeAppend(e.heard, s.delivery); }
  }

  // ------------------------------------------------------------------ the object

  lemma Foretell(e: Entry, s: Signal)
    requires Backed(e) && (s.Callback? ==> MayFollow(e.heard, s.delivery))
    ensures Backed(Observe(e, s))
    ensures UpToDate(e) && Observe(e, s).state.Success? ==> (UpToDate(Observe(e, s)) <==> !SubscribesAnew(e, s))
    ensures !e.state.Success? && Observe(e, s).state.Success? ==> UpToDate(Observe(e, s))
  {
    hide MayFollow, Backed, Observe, SubscribesAnew;
    ObserveKeepsBacked(e, s);
    if UpToDate(e) && Observe(e, s).state.Success? { StaysUpToDateExactlyWhen(e, s); }
    if !e.state.Success? && Observe(e, s).state.Success? {
      OnlyCallbacksFreshen(e, s);
      FreshHasOutcome(e, s);
    }
  }

  class QueryStoreEntry {
    var state: QueryState
    var lastApplicationError: Option<Payload>
    var started: bool
    var subscribed: bool
    var arming: nat
    var awaitingPrincipalChange: bool
    var rejectedUnder: Option<Authentication>
    ghost var heard: seq<Delivery>

    ghost function Model(): Entry
      reads this
    {
      Entry(state, lastApplicationError, started, subscribed, arming, awaitingPrincipalChange, rejectedUnder, heard)
    }

    constructor ()
      ensures Model() == IDLE && Valid()
    {
      state, lastApplicationError, started, subscribed := Pending, None, false, false;
      arming, awaitingPrincipalChange, rejectedUnder, heard := 0, false, None, [];
    }

    method HandleError(error: Error)
      modifies this
      ensures Model() == OnError(old(Model()), error)
    {
      if KindOf(error.code).Framework? { lastApplicationError := None; }
      if error.code.Unauthenticated? || error.code.Unauthorized? { arming := arming + 1; }
      state := AfterError(state, error);
    }

    method HandleCursorConfirmed()
      modifies this`state
      ensures Model() == OnCursorConfirmed(old(Model()))
    {
      match state
      case Unavailable(retained, _) =>
        if retained.Some? {
          state := Success(retained.value);
        } else if lastApplicationError.Some? {
          state := Declined(lastApplicationError.value);
        }
      case _ =>
    }

    method HandleDelivery(d: Delivery)
      modifies this
      ensures Model() == OnDelivery(old(Model()), d)
    {
      match d
      case Fresh(value) => lastApplicationError, state := None, Success(value);
      case Refused(reason) => lastApplicationError, state := Some(reason), Declined(reason);
      case Denied(error) => HandleError(error);
      case Trouble(error) => HandleError(error);
      case Confirmed => HandleCursorConfirmed();
      case Happened(_) =>
    }

    method SubscribeQuery(answer: Option<Error>)
      modifies this
      ensures Model() == StartQuery(old(Model()), answer)
    {
      heard, subscribed := [], answer.None?;
      if answer.Some? { HandleError(answer.value); }
    }

    method HandleAuthentication(auth: AuthenticationState, answer: Option<Error>)
      modifies this
      ensures Model() == Observe(old(Model()), AuthenticationChange(auth, answer))
    {
      hide StartQuery;
      if !started || !awaitingPrincipalChange || !auth.Accepted? { return; }
      if SamePrincipal(rejectedUnder, auth.authentication)
        && rejectedUnder.value.authEpoch == auth.authentication.authEpoch { return; }
      awaitingPrincipalChange, rejectedUnder := false, None;
      SubscribeQuery(answer);
    }

    /** The snapshot shows what the current subscription last said, once it has said anything. */
    ghost predicate Valid()
      reads this
    {
      Backed(Model())
    }

    /** One signal. As long as callbacks come as a client makes them, what is shown is what was said. */
    method Handle(s: Signal)
      modifies this
      ensures Model() == Observe(old(Model()), s)
      ensures old(Valid()) && (s.Callback? ==> MayFollow(old(heard), s.delivery)) ==>
                && Valid()
                && (old(UpToDate(Model())) && state.Success? ==>
                      (UpToDate(Model()) <==> !old(SubscribesAnew(Model(), s))))
                && (!old(state).Success? && state.Success? ==> UpToDate(Model()))
    {
      hide StartQuery, OnDelivery, Restarts, Backed, UpToDate, SubscribesAnew, MayFollow;
      if Valid() && (s.Callback? ==> MayFollow(heard, s.delivery)) { Foretell(Model(), s); }
      match s
      case Start(answer) =>
        if !started {
          started := true;
          SubscribeQuery(answer);
        }
      case Callback(d) =>
        if started && subscribed {
          heard := heard + [d];
          HandleDelivery(d);
        }
      case Connection(phase) =>
        if started && !phase.Ready? { state := AfterOutage(state, OUTAGE); }
      case Arm(auth, current) =>
        if arming > 0 {
          arming := arming - 1;
          if started && !auth.RefreshRequired? && !auth.AuthenticationFailed? && !auth.AuthenticationClosed? {
            awaitingPrincipalChange, rejectedUnder := true, current;
          }
        }
      case AuthenticationChange(auth, answer) => HandleAuthentication(auth, answer);
      case Stop =>
        if started {
          started, subscribed, lastApplicationError := false, false, None;
          awaitingPrincipalChange, rejectedUnder := false, None;
        }
    }
  }
}
