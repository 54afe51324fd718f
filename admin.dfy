/**
 * POST /inflow/manual-credit (internal/admin/server.go): the broadcaster
 * credits a viewer by hand, naming them either by Twitch user id or by
 * display name. The handler checks the request in order, resolves a display
 * name to a user id, and records one finalized, accepted manual credit.
 *
 * The Twitch lookup is the parameter `resolve`, called only when the request
 * names the viewer by display name. Decoding and the store's answer are inputs.
 */
module Admin {
  import opened Wrappers
  import opened Numbers
  import opened Json
  import opened LedgerTypes
  import opened Transactions

  /** The decoded ManualCreditRequest body; an omitted name or id is the empty string. */
  datatype ManualCreditRequest = ManualCreditRequest(
    twitchUserId: string,
    twitchDisplayName: string,
    numPointsToCredit: int,
    note: string)

  /** The arguments of the RecordManualCreditInflow insert (the amount column is an `int32`). */
  datatype RecordManualCreditInflowParams = RecordManualCreditInflowParams(note: string, twitchUserId: AccountId, numPointsToCredit: int)

  const ExactlyOneMessage := "invalid request payload: exactly one of 'twitchDisplayName' and 'twitchUserId' is required"
  const NotPositiveMessage := "invalid request payload: 'numPointsToCredit' must be set to a positive integer"
  const EmptyNoteMessage := "invalid request payload: 'note' must be set to a non-empty string"
  const ResolveFailedPrefix := "failed to resolve twitch user ID from username: "

  /** The request checks, in the handler's order. */
  function ValidateRequest(contentType: string, payload: Result<ManualCreditRequest, string>): (r: Result<ManualCreditRequest, HttpError>)
    ensures r.Success? <==>
      ContentTypeAcceptsJson(contentType) && payload.Success?
      && (payload.value.twitchDisplayName != "" <==> payload.value.twitchUserId == "")
      && payload.value.numPointsToCredit > 0 && payload.value.note != ""
    ensures r.Success? ==> r.value == payload.value
    ensures r.Failure? ==> r.error.status == BadRequest
    ensures !ContentTypeAcceptsJson(contentType) ==> r == Failure(HttpError(BadRequest, "content-type not supported"))
    ensures ContentTypeAcceptsJson(contentType) && payload.Failure? ==>
      r == Failure(HttpError(BadRequest, "invalid request payload: " + payload.error))
    ensures ContentTypeAcceptsJson(contentType) && payload.Success?
            && (payload.value.twitchDisplayName != "" <==> payload.value.twitchUserId != "") ==>
      r == Failure(HttpError(BadRequest, ExactlyOneMessage))
    ensures ContentTypeAcceptsJson(contentType) && payload.Success?
            && (payload.value.twitchDisplayName != "" <==> payload.value.twitchUserId == "")
            && payload.value.numPointsToCredit <= 0 ==>
      r == Failure(HttpError(BadRequest, NotPositiveMessage))
    ensures ContentTypeAcceptsJson(contentType) && payload.Success?
            && (payload.value.twitchDisplayName != "" <==> payload.value.twitchUserId == "")
            && payload.value.numPointsToCredit > 0 && payload.value.note == "" ==>
      r == Failure(HttpError(BadRequest, EmptyNoteMessage))
  {
    if !ContentTypeAcceptsJson(contentType) then Failure(HttpError(BadRequest, "content-type not supported"))
    else if payload.Failure? then Failure(HttpError(BadRequest, "invalid request payload: " + payload.error))
    else
      var req := payload.value;
      var hasDisplayName := req.twitchDisplayName != "";
      var hasUserId := req.twitchUserId != "";
      if hasDisplayName == hasUserId then Failure(HttpError(BadRequest, ExactlyOneMessage))
      else if req.numPointsToCredit <= 0 then Failure(HttpError(BadRequest, NotPositiveMessage))
      else if req.note == "" then Failure(HttpError(BadRequest, EmptyNoteMessage))
      else Success(req)
  }

  /**
   * The checks, then the user id — the given one, or the one `resolve` finds
   * for the display name — and the insert they lead to.
   */
  function HandlePostManualCredit(contentType: string, payload: Result<ManualCreditRequest, string>,
                                  resolve: string -> Result<AccountId, string>): (r: Result<RecordManualCreditInflowParams, HttpError>)
    ensures ValidateRequest(contentType, payload).Failure? ==> r == Failure(ValidateRequest(contentType, payload).error)
    ensures ValidateRequest(contentType, payload).Success? && payload.value.twitchUserId != "" ==>
      r == Success(RecordManualCreditInflowParams(payload.value.note, payload.value.twitchUserId,
                                                  ToInt32(payload.value.numPointsToCredit)))
    ensures ValidateRequest(contentType, payload).Success? && payload.value.twitchUserId == "" ==>
      var resolved := resolve(payload.value.twitchDisplayName);
      && (resolved.Failure? ==> r == Failure(HttpError(InternalServerError, ResolveFailedPrefix + resolved.error)))
      && (resolved.Success? ==> r == Success(RecordManualCreditInflowParams(payload.value.note, resolved.value,
                                                                           ToInt32(payload.value.numPointsToCredit))))
  {
    var checked := ValidateRequest(contentType, payload);
    if checked.Failure? then Failure(checked.error)
    else
      var req := checked.value;
      var userId :=
        if req.twitchUserId == "" then
          match resolve(req.twitchDisplayName)
          case Failure(e) => Failure(e)
          case Success(id) => Success(id)
        else Success(req.twitchUserId);
      if userId.Failure? then Failure(HttpError(InternalServerError, ResolveFailedPrefix + userId.error))
      else Success(RecordManualCreditInflowParams(req.note, userId.value, ToInt32(req.numPointsToCredit)))
  }

  /** A request that names the viewer by id never consults the resolver. */
  lemma UserIdNeedsNoResolver(contentType: string, payload: Result<ManualCreditRequest, string>,
                              resolve1: string -> Result<AccountId, string>, resolve2: string -> Result<AccountId, string>)
    requires payload.Success? ==> payload.value.twitchUserId != ""
    ensures HandlePostManualCredit(contentType, payload, resolve1) == HandlePostManualCredit(contentType, payload, resolve2)
  {
  }

  /**
   * What the ledger later shows for a recorded manual credit: an accepted
   * credit of the recorded amount described as "Manual credit: <note>".
   */
  lemma RecordedManualCreditRenders(p: RecordManualCreditInflowParams, id: FlowId, now: Timestamp)
    ensures BuildTransaction(id, ManualCredit, EncodeManualCredit(p.note), p.numPointsToCredit, now, Some(now), true)
            == Transaction(id, now, ManualCredit, Accepted, p.numPointsToCredit, "Manual credit: " + p.note)
  {
    DescribeRecordedManualCredit(p.note);
  }
}
