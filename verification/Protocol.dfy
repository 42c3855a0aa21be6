/**
 * The session envelope as the client sees it after decoding: subscription
 * cursors and transitions, mutation receipts, server and client frames, and the
 * checks the parsers make across fields.
 */
module Protocol {
  import opened Basics

  const MAX_PROTOCOL_ID := 0x7fff_ffff
  const MAX_RETRY_AFTER_MS := 30_000

  /** Application payloads stay opaque to the session layer. */
  type Payload = string

  datatype Code =
    | Malformed | Validation | VersionMismatch | Unauthenticated | AuthUnavailable
    | AuthStale | Unauthorized | NotFound | Conflict | Overloaded | SlowConsumer
    | DeadlineExceeded | Draining | Unavailable | ConvergenceUnavailable
    | Indeterminate | Internal

  datatype Error = Error(code: Code, retryable: bool, retryAfterMs: Option<nat>)

  predicate IsAuthCode(code: Code) {
    code.Unauthenticated? || code.AuthUnavailable? || code.AuthStale? || code.Unauthorized?
  }

  /** The kinds of client error: an authoritative refusal, an unhandled failure, or transport. */
  datatype ErrorKind = Framework | Unhandled | Transport

  function KindOf(code: Code): ErrorKind {
    match code
    case Internal => Unhandled
    case Malformed | Validation | VersionMismatch | Unauthenticated | AuthUnavailable
       | AuthStale | Unauthorized | NotFound | Conflict => Framework
    case _ => Transport
  }

  /** A position in one subscription's history of outcomes. */
  datatype Cursor = Cursor(generation: string, commitVersion: nat, authEpoch: nat, identity: string)

  datatype EventCursor = EventCursor(generation: string, commitVersion: nat, sequence: nat)

  datatype Transition =
    | Reset(from: Option<Cursor>, to: Cursor, value: Payload)
    | Update(source: Cursor, to: Cursor, value: Payload)
    | Checkpoint(source: Cursor, to: Cursor)
    | Resume(source: Cursor, to: Cursor)
    | Revoked(source: Cursor, to: Cursor, outcome: Error)
    | ApplicationError(from: Option<Cursor>, to: Cursor, error: Payload)

  /** Two cursors on one stream, the second strictly later. */
  predicate Advances(a: Cursor, b: Cursor) {
    && a.generation == b.generation
    && a.authEpoch == b.authEpoch
    && a.identity == b.identity
    && a.commitVersion < b.commitVersion
  }

  /** What the transition parser demands across fields. */
  predicate AcceptedTransition(t: Transition) {
    match t
    case Reset(_, _, _) => true
    case Update(source, to, _) => Advances(source, to)
    case Checkpoint(source, to) => Advances(source, to)
    case Resume(source, to) => source == to
    case Revoked(_, _, outcome) => IsAuthCode(outcome.code)
    case ApplicationError(from, to, _) => from.Some? ==> Advances(from.value, to)
  }

  datatype LiveEvent = Row(at: EventCursor, row: Payload) | Gap(at: EventCursor) | Boundary(at: EventCursor)

  datatype Kind = Query | Mutation | Procedure

  /** A request's answer: a value or an application error. */
  datatype Answer = Value(value: Payload) | Refusal(error: Payload)

  datatype Receipt = Receipt(requestId: string, commitVersion: nat, obligations: seq<nat>)

  predicate AcceptedReceipt(r: Receipt) {
    && (forall i | 0 <= i < |r.obligations| :: 1 <= r.obligations[i] <= MAX_PROTOCOL_ID)
    && (forall i, j | 0 <= i < j < |r.obligations| :: r.obligations[i] != r.obligations[j])
  }

  datatype ServerFrame =
    | Welcome(session: string)
    | AuthAccepted(attemptId: nat)
    | Deliver(id: nat, transition: Transition)
    | Live(id: nat, event: LiveEvent)
    | Result(id: nat, kind: Kind, answer: Answer, receipt: Option<Receipt>)
    | Failure(target: Option<nat>, error: Error)
    | Pong
    | Undecodable

  /** Which frames decode: the handshake pair before the welcome, everything else after it. */
  predicate AcceptedFrame(ready: bool, f: ServerFrame) {
    match f
    case Welcome(_) => !ready
    case Failure(target, _) => ready || target.None?
    case Deliver(_, t) => ready && AcceptedTransition(t)
    case Result(_, kind, _, receipt) =>
      ready && (kind.Mutation? <==> receipt.Some?) && (receipt.Some? ==> AcceptedReceipt(receipt.value))
    case AuthAccepted(_) | Live(_, _) | Pong => ready
    case Undecodable => false
  }

  datatype Credential = Anonymous | Bearer(token: string)

  datatype ClientFrame =
    | Hello(credential: Credential)
    | Auth(attemptId: nat, credential: Credential)
    | SubscribeFrame(id: nat, resumeAt: Option<Cursor>)
    | ResetFrame(id: nat, at: Cursor)
    | Unsubscribe(id: nat)
    | Call(id: nat, kind: Kind)
    | Cancel(id: nat)
    | Ping
}
