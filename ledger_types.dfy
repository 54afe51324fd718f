/**
  The ledger's shared vocabulary (types.go, internal/records/types.go): flow
  types, display states, the Transaction record that clients see, the balance
  pair, and the HTTP-level outcomes every handler reports.
*/
module LedgerTypes {
  import opened Wrappers

  /** A flow's uuid; the model hands out fresh naturals instead of random uuids. */
  type FlowId = nat
  /** A Twitch user id, the owner of an account. */
  type AccountId = string
  /** A point in time; the clock is an input of every operation that reads it. */
  type Timestamp = int

  /**
    The `type` column of a flow. types.go names only three of these, but the
    renderer and the client use all five; a type string the ledger does not
    know is kept as `Unrecognized`.
  */
  datatype FlowType = ManualCredit | Cheer | Subscription | GiftSub | AlertRedemption | Unrecognized(name: string)

  function TypeName(t: FlowType): string
  {
    match t
    case ManualCredit => "manual-credit"
    case Cheer => "cheer"
    case Subscription => "subscription"
    case GiftSub => "gift-sub"
    case AlertRedemption => "alert-redemption"
    case Unrecognized(name) => name
  }

  predicate IsKnownTypeName(s: string)
  {
    s == "manual-credit" || s == "cheer" || s == "subscription" || s == "gift-sub" || s == "alert-redemption"
  }

  /** A flow type is well formed when an unrecognized name is not one of the five known names. */
  predicate WellFormedType(t: FlowType)
  {
    t.Unrecognized? ==> !IsKnownTypeName(t.name)
  }

  function ParseFlowType(s: string): (t: FlowType)
    ensures WellFormedType(t)
  {
    if s == "manual-credit" then ManualCredit
    else if s == "cheer" then Cheer
    else if s == "subscription" then Subscription
    else if s == "gift-sub" then GiftSub
    else if s == "alert-redemption" then AlertRedemption
    else Unrecognized(s)
  }

  /** The type column round-trips through the datatype in both directions. */
  lemma TypeNameRoundTrip(t: FlowType, s: string)
    requires WellFormedType(t)
    ensures ParseFlowType(TypeName(t)) == t
    ensures TypeName(ParseFlowType(s)) == s
  {
  }

  datatype TransactionState = Pending | Accepted | Rejected

  /** One history item or real-time event, as serialized to clients. */
  datatype Transaction = Transaction(
    id: FlowId,
    timestamp: Timestamp,
    flowType: FlowType,
    state: TransactionState,
    deltaPoints: int,
    description: string)

  datatype Balance = Balance(totalPoints: int, availablePoints: int)

  datatype Status = BadRequest | Unauthorized | NotFound | Conflict | InternalServerError

  /** What `http.Error` writes: a status and a plain-text message. */
  datatype HttpError = HttpError(status: Status, message: string)

  /** The two verbs of the outflow finalization route. */
  datatype HttpMethod = Patch | Delete

  /** A request's content-type is acceptable when it is unset or starts with `application/json`. */
  predicate ContentTypeAcceptsJson(contentType: string)
  {
    contentType == "" || "application/json" <= contentType
  }

  /** The longest message, in bytes, that an inflow stores. */
  const MaxStoredMessageLen: nat := 128

  /** `message[:MaxStoredMessageLen]` when the message is longer; one char stands for one byte. */
  function TruncateMessage(message: string): (r: string)
    ensures r <= message
    ensures |r| == if |message| <= MaxStoredMessageLen then |message| else MaxStoredMessageLen
  {
    if |message| > MaxStoredMessageLen then message[..MaxStoredMessageLen] else message
  }

  /** An inflow handler's response: its checks' error, else the store's error as a 500, else the new flow's id. */
  function InflowResponse<P>(checked: Result<P, HttpError>, stored: Result<FlowId, string>): (r: Result<FlowId, HttpError>)
    ensures checked.Failure? ==> r == Failure(checked.error)
    ensures checked.Success? && stored.Failure? ==> r == Failure(HttpError(InternalServerError, stored.error))
    ensures r.Success? <==> checked.Success? && stored.Success?
    ensures r.Success? ==> r.value == stored.value
  {
    if checked.Failure? then Failure(checked.error)
    else if stored.Failure? then Failure(HttpError(InternalServerError, stored.error))
    else Success(stored.value)
  }
}
