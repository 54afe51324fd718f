/**
 * The Go client library that other services use to talk to the ledger server
 * (client.go): the PATCH/DELETE choice and 204 check of a finalize call, the
 * status mapping of an alert-redemption request, and the transaction context
 * whose Accept/Finalize pair settles a pending debit at most once.
 *
 * The network is not modelled: each remote call is replaced by the outcome it
 * produced, given as a parameter — `Failure(msg)` for a transport error, or
 * `Success(status)` for the status code that came back.
 */
module Client {
  import opened Wrappers
  import opened LedgerTypes
  import Numbers

  /** Errors the client hands back to its callers. */
  datatype ClientError =
    | NotEnoughPoints          // the sentinel ErrNotEnoughPoints
    | Unauthorized             // the sentinel auth.ErrUnauthorized (used by the mock ledger)
    | Failed(message: string)  // any other error, by its message

  const NotEnoughPointsMessage := "not enough points"
  const AlreadyFinalizedMessage := "transaction has already been finalized upon call to Accept"

  const StatusOK := 200
  const StatusCreated := 201
  const StatusNoContent := 204
  const StatusConflict := 409

  function MethodName(m: HttpMethod): string
  {
    match m
    case Patch => "PATCH"
    case Delete => "DELETE"
  }

  /** The finalize request accepts with PATCH and rejects with DELETE. */
  function FinalizeMethod(accept: bool): (m: HttpMethod)
    ensures m == Patch <==> accept
    ensures m == Delete <==> !accept
  {
    if accept then Patch else Delete
  }

  function OutflowUrl(ledgerUrl: string): string
  {
    ledgerUrl + "/outflow"
  }

  function FlowUrl(ledgerUrl: string, flowId: string): string
  {
    OutflowUrl(ledgerUrl) + "/" + flowId
  }

  /**
   * The error (if any) of one finalize call, given what the remote call
   * returned: only a 204 response counts as success.
   */
  function FinalizeError(ledgerUrl: string, flowId: string, accept: bool, response: Result<int, string>): (r: Option<string>)
    ensures r.None? <==> response == Success(StatusNoContent)
    ensures response.Failure? ==> r == Some(response.error)
    ensures response.Success? && response.value != StatusNoContent ==>
      r == Some("got response " + Numbers.DecimalString(response.value) + " from "
                + MethodName(FinalizeMethod(accept)) + " " + FlowUrl(ledgerUrl, flowId))
  {
    match response
    case Failure(e) => Some(e)
    case Success(status) =>
      if status != StatusNoContent then
        Some("got response " + Numbers.DecimalString(status) + " from "
             + MethodName(FinalizeMethod(accept)) + " " + FlowUrl(ledgerUrl, flowId))
      else None
  }

  /**
   * What came back from POST /outflow. Response headers are keyed by the name
   * as stored in the response; `decodedFlowId` is the flow id decoded from the
   * JSON body, or the decoder's error message.
   */
  datatype RedemptionResponse = RedemptionResponse(status: int, headers: map<string, string>, decodedFlowId: Result<string, string>)

  /** A header lookup: a header that is not present reads as the empty string. */
  function HeaderGet(headers: map<string, string>, key: string): string
  {
    if key in headers then headers[key] else ""
  }

  /**
   * The client reads the response's content type under the key "content/type".
   * No header can carry that name ('/' is not allowed in a header field name),
   * so for every response the check below sees the empty string.
   */
  const ContentTypeKeyAsWritten := "content/type"

  predicate StartsWith(s: string, prefix: string)
  {
    |prefix| <= |s| && s[..|prefix|] == prefix
  }

  predicate ContentTypeAllowed(contentType: string)
  {
    contentType == "" || StartsWith(contentType, "application/json")
  }

  /**
   * The outcome of RequestAlertRedemption given what its POST returned: the
   * new flow's id, or the error.
   */
  function AlertRedemptionResult(ledgerUrl: string, response: Result<RedemptionResponse, string>): (r: Result<string, ClientError>)
    ensures r == Failure(NotEnoughPoints) <==> response.Success? && response.value.status == StatusConflict
    ensures r.Success? <==>
      response.Success? && response.value.status in {StatusOK, StatusCreated}
      && ContentTypeAllowed(HeaderGet(response.value.headers, ContentTypeKeyAsWritten))
      && response.value.decodedFlowId.Success?
    ensures r.Success? ==> r.value == response.value.decodedFlowId.value
    ensures response.Failure? ==> r == Failure(Failed(response.error))
    ensures response.Success? && response.value.status !in {StatusOK, StatusCreated, StatusConflict} ==>
      r == Failure(Failed("got response " + Numbers.DecimalString(response.value.status)
                          + " from POST " + OutflowUrl(ledgerUrl)))
  {
    match response
    case Failure(e) => Failure(Failed(e))
    case Success(res) =>
      if res.status == StatusConflict then Failure(NotEnoughPoints)
      else if res.status != StatusOK && res.status != StatusCreated then
        Failure(Failed("got response " + Numbers.DecimalString(res.status) + " from POST " + OutflowUrl(ledgerUrl)))
      else
        var contentType := HeaderGet(res.headers, ContentTypeKeyAsWritten);
        if !ContentTypeAllowed(contentType) then
          Failure(Failed("got unexpected content-type '" + contentType + "' from POST " + OutflowUrl(ledgerUrl)))
        else if res.decodedFlowId.Failure? then
          Failure(Failed("error decoding response body: " + res.decodedFlowId.error))
        else Success(res.decodedFlowId.value)
  }

  /**
   * Because no response carries a "content/type" header, the content-type
   * check never rejects: whatever Content-Type the server sends, an OK
   * response with a decodable body yields its flow id.
   */
  lemma ContentTypeCheckInert(ledgerUrl: string, status: int, headers: map<string, string>, flowId: string)
    requires ContentTypeKeyAsWritten !in headers
    requires status == StatusOK || status == StatusCreated
    ensures AlertRedemptionResult(ledgerUrl, Success(RedemptionResponse(status, headers, Success(flowId)))) == Success(flowId)
  {
  }

  /** The two calls a transaction context offers. */
  datatype Call = AcceptCall | FinalizeCall

  /**
   * One call on a context as a state transition: the new `finalized` flag, the
   * remote finalize request it issued (if any), and whether the remote call
   * succeeded.
   */
  datatype StepOutcome = StepOutcome(finalized: bool, request: Option<HttpMethod>, settled: bool)

  function Step(finalized: bool, call: Call, response: Result<int, string>): (o: StepOutcome)
    ensures finalized ==> o.request.None? && o.finalized && !o.settled
    ensures !finalized ==> o.request == Some(FinalizeMethod(call == AcceptCall))
    ensures !finalized ==> (o.finalized <==> response == Success(StatusNoContent))
    ensures o.settled <==> o.finalized && !finalized
  {
    if finalized then StepOutcome(true, None, false)
    else
      var ok := response == Success(StatusNoContent);
      StepOutcome(ok, Some(FinalizeMethod(call == AcceptCall)), ok)
  }

  /** The remote finalize requests a series of calls issues, and how many of them settled the flow. */
  datatype Trace = Trace(finalized: bool, requests: seq<HttpMethod>, settledCount: nat)

  function Run(finalized: bool, calls: seq<(Call, Result<int, string>)>): Trace
    decreases |calls|
  {
    if calls == [] then Trace(finalized, [], 0)
    else
      var o := Step(finalized, calls[0].0, calls[0].1);
      var rest := Run(o.finalized, calls[1..]);
      Trace(rest.finalized,
            (if o.request.Some? then [o.request.value] else []) + rest.requests,
            (if o.settled then 1 else 0) + rest.settledCount)
  }

  /** A finalized context stays finalized and never again talks to the ledger. */
  lemma {:induction false} RunWhenFinalized(calls: seq<(Call, Result<int, string>)>)
    ensures Run(true, calls) == Trace(true, [], 0)
    decreases |calls|
  {
    if calls != [] {
      RunWhenFinalized(calls[1..]);
    }
  }

  /** Whatever the calls and the responses, a context settles its flow at most once. */
  lemma {:induction false} SettlesAtMostOnce(finalized: bool, calls: seq<(Call, Result<int, string>)>)
    ensures Run(finalized, calls).settledCount <= 1
    ensures finalized ==> Run(finalized, calls).settledCount == 0
    ensures Run(finalized, calls).finalized <==> finalized || Run(finalized, calls).settledCount == 1
    decreases |calls|
  {
    if calls != [] {
      var o := Step(finalized, calls[0].0, calls[0].1);
      SettlesAtMostOnce(o.finalized, calls[1..]);
    }
  }

  /**
   * A successful Accept followed by any calls at all — Finalize in particular —
   * issues exactly one remote finalize, the PATCH.
   */
  lemma AcceptThenAnythingOneRequest(later: seq<(Call, Result<int, string>)>)
    ensures Run(false, [(AcceptCall, Success(StatusNoContent))] + later).requests == [Patch]
    ensures Run(false, [(AcceptCall, Success(StatusNoContent))] + later).finalized
  {
    var calls := [(AcceptCall, Success(StatusNoContent))] + later;
    assert calls[1..] == later;
    RunWhenFinalized(later);
  }

  /**
   * The context RequestAlertRedemption hands out for a pending debit. The
   * ghost `requests` records the remote finalize requests it has issued.
   */
  class TransactionContext {
    const ledgerUrl: string
    const accessToken: string
    const flowId: string
    var finalized: bool
    ghost var requests: seq<HttpMethod>

    constructor(ledgerUrl: string, accessToken: string, flowId: string)
      ensures this.ledgerUrl == ledgerUrl && this.accessToken == accessToken && this.flowId == flowId
      ensures !finalized && requests == []
    {
      this.ledgerUrl := ledgerUrl;
      this.accessToken := accessToken;
      this.flowId := flowId;
      finalized := false;
      requests := [];
    }

    /**
     * Accepts the debit. On a finalized context this fails without a remote
     * call; otherwise `response` is what the PATCH returned, and the context
     * becomes finalized only if it succeeded.
     */
    method Accept(response: Result<int, string>) returns (err: Option<string>)
      modifies this
      ensures old(finalized) ==> err == Some(AlreadyFinalizedMessage) && finalized && requests == old(requests)
      ensures !old(finalized) ==> err == FinalizeError(ledgerUrl, flowId, true, response)
      ensures var o := Step(old(finalized), AcceptCall, response);
        finalized == o.finalized
        && requests == old(requests) + (if o.request.Some? then [o.request.value] else [])
    {
      if finalized {
        return Some(AlreadyFinalizedMessage);
      }
      requests := requests + [FinalizeMethod(true)];
      err := FinalizeError(ledgerUrl, flowId, true, response);
      if err.Some? {
        return err;
      }
      finalized := true;
    }

    /**
     * Rejects the debit unless the context is already finalized, in which case
     * it does nothing; `response` is what the DELETE returned.
     */
    method Finalize(response: Result<int, string>) returns (err: Option<string>)
      modifies this
      ensures old(finalized) ==> err.None? && finalized && requests == old(requests)
      ensures !old(finalized) ==> err == FinalizeError(ledgerUrl, flowId, false, response)
      ensures var o := Step(old(finalized), FinalizeCall, response);
        finalized == o.finalized
        && requests == old(requests) + (if o.request.Some? then [o.request.value] else [])
    {
      if !finalized {
        requests := requests + [FinalizeMethod(false)];
        err := FinalizeError(ledgerUrl, flowId, false, response);
        if err.Some? {
          return err;
        }
        finalized := true;
      }
      return None;
    }
  }

  /**
   * RequestAlertRedemption: on success, a fresh pending context for the new
   * flow, carrying the caller's access token.
   */
  method RequestAlertRedemption(ledgerUrl: string, accessToken: string, response: Result<RedemptionResponse, string>)
    returns (r: Result<TransactionContext, ClientError>)
    ensures AlertRedemptionResult(ledgerUrl, response).Failure? ==>
      r == Failure(AlertRedemptionResult(ledgerUrl, response).error)
    ensures AlertRedemptionResult(ledgerUrl, response).Success? ==>
      r.Success? && fresh(r.value) && !r.value.finalized && r.value.requests == []
      && r.value.flowId == AlertRedemptionResult(ledgerUrl, response).value
      && r.value.accessToken == accessToken && r.value.ledgerUrl == ledgerUrl
  {
    var result := AlertRedemptionResult(ledgerUrl, response);
    if result.Failure? {
      return Failure(result.error);
    }
    var context := new TransactionContext(ledgerUrl, accessToken, result.value);
    return Success(context);
  }
}
