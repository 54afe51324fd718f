/**
 * POST /inflow/cheer (internal/cheer/server.go): an internal service credits
 * a viewer for cheering. The handler checks the request in order — content
 * type, payload, a positive amount — then truncates the message and records
 * one finalized, accepted inflow for the caller.
 *
 * The request body's JSON decoding is an input (`payload`), and so is a
 * store error on the insert (`insertFault`).
 */
module Cheer {
  import opened Wrappers
  import opened Numbers
  import opened Json
  import opened LedgerTypes
  import opened Transactions
  import opened FlowStore

  /** The decoded CheerRequest body; the amount is a Go `int` (64 bits). */
  datatype CheerRequest = CheerRequest(numPointsToCredit: int, message: string)

  /** The arguments of the RecordCheerInflow insert; the amount column is an `int32`. */
  datatype RecordCheerInflowParams = RecordCheerInflowParams(twitchUserId: AccountId, numPointsToCredit: int, message: string)

  const NotPositiveMessage := "invalid request payload: 'numPointsToCredit' must be set to a positive integer"

  /**
   * The handler's checks and the insert they lead to, as written: the amount
   * is converted with `int32(...)`, which keeps its low 32 bits.
   */
  function Validate(caller: AccountId, contentType: string, payload: Result<CheerRequest, string>): (r: Result<RecordCheerInflowParams, HttpError>)
    ensures r.Success? <==> ContentTypeAcceptsJson(contentType) && payload.Success? && payload.value.numPointsToCredit > 0
    ensures r.Failure? ==> r.error.status == BadRequest
    ensures !ContentTypeAcceptsJson(contentType) ==> r == Failure(HttpError(BadRequest, "content-type not supported"))
    ensures ContentTypeAcceptsJson(contentType) && payload.Failure? ==>
      r == Failure(HttpError(BadRequest, "invalid request payload: " + payload.error))
    ensures ContentTypeAcceptsJson(contentType) && payload.Success? && payload.value.numPointsToCredit <= 0 ==>
      r == Failure(HttpError(BadRequest, NotPositiveMessage))
    ensures r.Success? ==>
      && r.value.twitchUserId == caller
      && r.value.message == TruncateMessage(payload.value.message)
      && InInt32(r.value.numPointsToCredit)
      && (payload.value.numPointsToCredit <= MaxInt32 ==> r.value.numPointsToCredit == payload.value.numPointsToCredit)
  {
    if !ContentTypeAcceptsJson(contentType) then Failure(HttpError(BadRequest, "content-type not supported"))
    else if payload.Failure? then Failure(HttpError(BadRequest, "invalid request payload: " + payload.error))
    else if payload.value.numPointsToCredit <= 0 then Failure(HttpError(BadRequest, NotPositiveMessage))
    else Success(RecordCheerInflowParams(caller, ToInt32(payload.value.numPointsToCredit), TruncateMessage(payload.value.message)))
  }

  /**
   * What the ledger later shows for a recorded cheer: an accepted credit of
   * the recorded amount, thanking the viewer with the stored message.
   */
  lemma RecordedCheerRenders(p: RecordCheerInflowParams, id: FlowId, now: Timestamp)
    ensures var t := BuildTransaction(id, Cheer, EncodeCheer(p.message), p.numPointsToCredit, now, Some(now), true);
      && t.state == Accepted && t.timestamp == now && t.deltaPoints == p.numPointsToCredit
      && (p.message == "" ==> t.description == "Thank you for cheering!")
      && (p.message != "" ==> t.description == "Thank you for cheering with the message '" + p.message + "'!")
  {
    DescribeRecordedCheer(p.message);
  }

  /**
   * As written, a request for 2^32 - 1 points passes the positivity check and
   * is recorded as a credit of -1: a "cheer" that takes a point away.
   */
  lemma WrappedCheerDebits()
    ensures var r := Validate("user-1", "application/json", Success(CheerRequest(4294967295, "")));
      r.Success? && r.value.numPointsToCredit == -1
  {
  }

  /**
   * The checks with the amount bounded by what the `int32` column holds,
   * refusing a larger request instead of wrapping it.
   */
  function ValidateBounded(caller: AccountId, contentType: string, payload: Result<CheerRequest, string>): (r: Result<RecordCheerInflowParams, HttpError>)
    ensures r.Success? <==> ContentTypeAcceptsJson(contentType) && payload.Success?
                            && 0 < payload.value.numPointsToCredit <= MaxInt32
    ensures r.Failure? ==> r.error.status == BadRequest
    ensures r.Success? ==> r.value.numPointsToCredit == payload.value.numPointsToCredit
    ensures payload.Success? && payload.value.numPointsToCredit <= MaxInt32 ==>
      r == Validate(caller, contentType, payload)
  {
    if ContentTypeAcceptsJson(contentType) && payload.Success? && payload.value.numPointsToCredit > MaxInt32 then
      Failure(HttpError(BadRequest, "invalid request payload: 'numPointsToCredit' is too large"))
    else Validate(caller, contentType, payload)
  }

  /**
   * handlePostCheer for an authorized caller, with the bounded checks: one
   * finalized, accepted credit is appended and its id returned, or nothing
   * changes and the error is returned.
   */
  method HandlePostCheer(store: Store, caller: AccountId, contentType: string, payload: Result<CheerRequest, string>,
                         insertFault: Option<string>, now: Timestamp) returns (r: Result<FlowId, HttpError>)
    requires store.Valid()
    modifies store
    ensures store.Valid()
    ensures r == InflowResponse(ValidateBounded(caller, contentType, payload),
                                if insertFault.Some? then Failure(insertFault.value) else Success(old(store.nextId)))
    ensures r.Failure? ==> store.flows == old(store.flows)
    ensures r.Success? ==>
      && store.flows == old(store.flows) + [Flow(r.value, Cheer, EncodeCheer(TruncateMessage(payload.value.message)),
                                                 caller, payload.value.numPointsToCredit, now, Some(now), true)]
      && Total(store.flows, caller) == old(Total(store.flows, caller)) + payload.value.numPointsToCredit
      && Available(store.flows, caller) == old(Available(store.flows, caller)) + payload.value.numPointsToCredit
  {
    var checked := ValidateBounded(caller, contentType, payload);
    if checked.Failure? || insertFault.Some? {
      return InflowResponse(checked, if insertFault.Some? then Failure(insertFault.value) else Success(store.nextId));
    }
    var p := checked.value;
    var before := store.flows;
    var id := store.RecordFinalizedInflow(Cheer, EncodeCheer(p.message), p.twitchUserId, p.numPointsToCredit, now);
    AppendShares(before, store.flows[|before|], caller);
    assert before + [store.flows[|before|]] == store.flows;
    r := InflowResponse(checked, Success(id));
  }
}
