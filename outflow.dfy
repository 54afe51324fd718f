/**
  internal/outflow/server.go: the two-phase debit protocol. `POST /outflow`
  reserves points by recording a pending debit once the caller's available
  balance covers it; `PATCH`/`DELETE /outflow/{id}` later accepts or rejects
  that debit, exactly once.
*/
module Outflow {
  import opened Wrappers
  import opened Numbers
  import opened Json
  import opened LedgerTypes
  import opened FlowStore

  /**
    The decoded `AlertRedemptionRequest` body: the type is the raw JSON string,
    and `numPointsToDebit` is a Go `int` (64 bits).
  */
  datatype AlertRedemptionRequest = AlertRedemptionRequest(
    requestType: string,
    numPointsToDebit: int,
    alertType: string,
    alertMetadata: Option<map<string, Value>>)

  /** The request checks, in source order, as written: the amount is only required to be positive. */
  function ValidateRequestAsWritten(contentType: string, payload: Result<AlertRedemptionRequest, string>): (r: Result<AlertRedemptionRequest, HttpError>)
    ensures r.Success? <==> ContentTypeAcceptsJson(contentType) && payload.Success?
                            && payload.value.numPointsToDebit > 0 && payload.value.requestType == TypeName(AlertRedemption)
    ensures r.Success? ==> r.value == payload.value
    ensures r.Failure? ==> r.error.status == BadRequest
    ensures !ContentTypeAcceptsJson(contentType) ==> r == Failure(HttpError(BadRequest, "content-type not supported"))
    ensures ContentTypeAcceptsJson(contentType) && payload.Failure? ==>
      r == Failure(HttpError(BadRequest, "invalid request payload: " + payload.error))
    ensures ContentTypeAcceptsJson(contentType) && payload.Success? && payload.value.numPointsToDebit <= 0 ==>
      r == Failure(HttpError(BadRequest, "numPointsToDebit must be positive"))
    ensures ContentTypeAcceptsJson(contentType) && payload.Success? && payload.value.numPointsToDebit > 0
            && payload.value.requestType != TypeName(AlertRedemption) ==>
      r == Failure(HttpError(BadRequest, "unsupported transaction type"))
  {
    if !ContentTypeAcceptsJson(contentType) then Failure(HttpError(BadRequest, "content-type not supported"))
    else if payload.Failure? then Failure(HttpError(BadRequest, "invalid request payload: " + payload.error))
    else if payload.value.numPointsToDebit <= 0 then Failure(HttpError(BadRequest, "numPointsToDebit must be positive"))
    else if payload.value.requestType != TypeName(AlertRedemption) then Failure(HttpError(BadRequest, "unsupported transaction type"))
    else Success(payload.value)
  }

  /**
    The balance check and the amount handed to the store, as written: both
    go through `int32(numPointsToDebit)`. The result is the amount the store
    debits, so the stored delta is its negation.
  */
  function DebitAsWritten(available: int, numPointsToDebit: int): (r: Result<int, HttpError>)
    ensures r.Success? ==> InInt32(r.value) && available >= r.value
    ensures r.Failure? ==> r.error == HttpError(Conflict, "not enough points")
  {
    if available < ToInt32(numPointsToDebit) then Failure(HttpError(Conflict, "not enough points"))
    else Success(ToInt32(numPointsToDebit))
  }

  /**
    The request checks with the amount bounded by what `int32` holds, as the
    debit column and the conversion to it evidently require.
  */
  function ValidateRequest(contentType: string, payload: Result<AlertRedemptionRequest, string>): (r: Result<AlertRedemptionRequest, HttpError>)
    ensures r.Success? <==> ContentTypeAcceptsJson(contentType) && payload.Success?
                            && 0 < payload.value.numPointsToDebit <= MaxInt32
                            && payload.value.requestType == TypeName(AlertRedemption)
    ensures r.Success? ==> r.value == payload.value
    ensures r.Failure? ==> r.error.status == BadRequest
    ensures !ContentTypeAcceptsJson(contentType) ==> r == Failure(HttpError(BadRequest, "content-type not supported"))
    ensures ContentTypeAcceptsJson(contentType) && payload.Failure? ==>
      r == Failure(HttpError(BadRequest, "invalid request payload: " + payload.error))
    ensures ContentTypeAcceptsJson(contentType) && payload.Success? && payload.value.numPointsToDebit <= 0 ==>
      r == Failure(HttpError(BadRequest, "numPointsToDebit must be positive"))
    ensures ContentTypeAcceptsJson(contentType) && payload.Success? && payload.value.numPointsToDebit > MaxInt32 ==>
      r == Failure(HttpError(BadRequest, "numPointsToDebit is too large"))
    ensures ContentTypeAcceptsJson(contentType) && payload.Success? && 0 < payload.value.numPointsToDebit <= MaxInt32
            && payload.value.requestType != TypeName(AlertRedemption) ==>
      r == Failure(HttpError(BadRequest, "unsupported transaction type"))
  {
    if !ContentTypeAcceptsJson(contentType) then Failure(HttpError(BadRequest, "content-type not supported"))
    else if payload.Failure? then Failure(HttpError(BadRequest, "invalid request payload: " + payload.error))
    else if payload.value.numPointsToDebit <= 0 then Failure(HttpError(BadRequest, "numPointsToDebit must be positive"))
    else if payload.value.numPointsToDebit > MaxInt32 then Failure(HttpError(BadRequest, "numPointsToDebit is too large"))
    else if payload.value.requestType != TypeName(AlertRedemption) then Failure(HttpError(BadRequest, "unsupported transaction type"))
    else Success(payload.value)
  }

  /** The balance check on a validated amount: refuse unless the available balance covers it. */
  function Debit(available: int, numPointsToDebit: int): (r: Result<int, HttpError>)
    ensures r.Success? <==> numPointsToDebit <= available
    ensures r.Success? ==> r.value == numPointsToDebit && available - r.value >= 0
    ensures r.Failure? ==> r.error == HttpError(Conflict, "not enough points")
  {
    if available < numPointsToDebit then Failure(HttpError(Conflict, "not enough points"))
    else Success(numPointsToDebit)
  }

  /**
    The amount 2^32 - 5 passes the written checks with nothing available,
    and the "debit" it records adds 5 points.
  */
  lemma AsWrittenDebitCredits()
    ensures var req := AlertRedemptionRequest("alert-redemption", 4294967291, "foo", None);
      && ValidateRequestAsWritten("application/json", Success(req)) == Success(req)
      && DebitAsWritten(0, req.numPointsToDebit) == Success(-5)
      && -DebitAsWritten(0, req.numPointsToDebit).value == 5
  {
  }

  /** The corrected checks refuse that request, and never record a credit. */
  lemma CorrectedRefusesWrappedAmount()
    ensures var req := AlertRedemptionRequest("alert-redemption", 4294967291, "foo", None);
      ValidateRequest("application/json", Success(req)) == Failure(HttpError(BadRequest, "numPointsToDebit is too large"))
  {
  }

  /** On every amount an `int32` holds, the corrected checks agree with the written ones. */
  lemma CorrectedAgreesInRange(contentType: string, payload: Result<AlertRedemptionRequest, string>, available: int)
    requires payload.Success? ==> payload.value.numPointsToDebit <= MaxInt32
    ensures ValidateRequest(contentType, payload) == ValidateRequestAsWritten(contentType, payload)
    ensures payload.Success? && payload.value.numPointsToDebit > 0 ==>
      Debit(available, payload.value.numPointsToDebit) == DebitAsWritten(available, payload.value.numPointsToDebit)
  {
  }

  /**
    The available balance the handler compares against: the balance row's
    available points, or 0 when the account has no row.
  */
  function AvailableForDebit(flows: seq<Flow>, account: AccountId): (a: int)
    ensures a == Available(flows, account)
  {
    match GetBalance(flows, account)
    case None => NoFlowsNoBalance(flows, account); 0
    case Some(b) => b.availablePoints
  }

  /**
    Reserving and then finalizing a debit: accepting spends the reserved
    points from both balances, rejecting gives back exactly what was held.
  */
  lemma ReserveThenFinalize(flows: seq<Flow>, f: Flow, accepted: bool, now: Timestamp)
    requires WellFormed(flows + [f]) && f.IsPending() && f.deltaPoints < 0
    ensures var after := Finalized(flows + [f], f.id, accepted, now);
      accepted ==> Total(after, f.account) == Total(flows, f.account) + f.deltaPoints &&
                   Available(after, f.account) == Available(flows, f.account) + f.deltaPoints
    ensures var after := Finalized(flows + [f], f.id, accepted, now);
      !accepted ==> Total(after, f.account) == Total(flows, f.account) &&
                    Available(after, f.account) == Available(flows, f.account)
  {
    AppendShares(flows, f, f.account);
    assert (flows + [f])[|flows|] == f;
    FinalizeShares(flows + [f], |flows|, accepted, now, f.account);
  }

  /**
    handleCreateOutflow for an authenticated caller. `payload` is the body's
    decoding (or the decoder's error); `balanceFault` and `insertFault` are
    store errors other than "no rows". On success the new flow's id is
    returned; on any failure the table is unchanged.
  */
  method HandleCreateOutflow(store: Store, caller: AccountId, contentType: string,
                             payload: Result<AlertRedemptionRequest, string>,
                             balanceFault: Option<string>, insertFault: Option<string>,
                             now: Timestamp) returns (r: Result<FlowId, HttpError>)
    requires store.Valid()
    modifies store
    ensures store.Valid()
    ensures r.Failure? ==> store.flows == old(store.flows)
    ensures ValidateRequest(contentType, payload).Failure? ==> r == Failure(ValidateRequest(contentType, payload).error)
    ensures r.Success? <==> ValidateRequest(contentType, payload).Success? && balanceFault.None?
                            && payload.value.numPointsToDebit <= old(Available(store.flows, caller))
                            && insertFault.None?
    ensures ValidateRequest(contentType, payload).Success? && balanceFault.None?
            && payload.value.numPointsToDebit > old(Available(store.flows, caller)) ==>
      r == Failure(HttpError(Conflict, "not enough points"))
    ensures r.Success? ==>
      && store.flows == old(store.flows) + [Flow(r.value, AlertRedemption,
                                                 EncodeAlertRedemption(payload.value.alertType, payload.value.alertMetadata),
                                                 caller, -payload.value.numPointsToDebit, now, None, false)]
      && (forall i :: 0 <= i < |old(store.flows)| ==> old(store.flows)[i].id != r.value)
      && Total(store.flows, caller) == old(Total(store.flows, caller))
      && Available(store.flows, caller) == old(Available(store.flows, caller)) - payload.value.numPointsToDebit
      && Available(store.flows, caller) >= 0
  {
    var validated := ValidateRequest(contentType, payload);
    if validated.Failure? {
      return Failure(validated.error);
    }
    var req := validated.value;
    if balanceFault.Some? {
      return Failure(HttpError(InternalServerError, balanceFault.value));
    }
    var available := AvailableForDebit(store.flows, caller);
    var debit := Debit(available, req.numPointsToDebit);
    if debit.Failure? {
      return Failure(debit.error);
    }
    if insertFault.Some? {
      return Failure(HttpError(InternalServerError, insertFault.value));
    }
    var before := store.flows;
    var id := store.RecordPendingAlertRedemptionOutflow(caller, req.alertType, req.alertMetadata, debit.value, now);
    AppendShares(before, store.flows[|before|], caller);
    assert before + [store.flows[|before|]] == store.flows;
    return Success(id);
  }

  /**
    handleCreateOutflow as written: the written checks, and the `int32`
    conversion in both the balance check and the stored delta. An amount
    that wraps to a negative `int32` passes with any balance and records a
    pending row that raises the caller's total.
  */
  method HandleCreateOutflowAsWritten(store: Store, caller: AccountId, contentType: string,
                                      payload: Result<AlertRedemptionRequest, string>,
                                      balanceFault: Option<string>, insertFault: Option<string>,
                                      now: Timestamp) returns (r: Result<FlowId, HttpError>)
    requires store.Valid()
    modifies store
    ensures store.Valid()
    ensures r.Failure? ==> store.flows == old(store.flows)
    ensures ValidateRequestAsWritten(contentType, payload).Failure? ==>
      r == Failure(ValidateRequestAsWritten(contentType, payload).error)
    ensures r.Success? <==> ValidateRequestAsWritten(contentType, payload).Success? && balanceFault.None?
                            && ToInt32(payload.value.numPointsToDebit) <= old(Available(store.flows, caller))
                            && insertFault.None?
    ensures r.Success? ==>
      && store.flows == old(store.flows) + [Flow(r.value, AlertRedemption,
                                                 EncodeAlertRedemption(payload.value.alertType, payload.value.alertMetadata),
                                                 caller, -ToInt32(payload.value.numPointsToDebit), now, None, false)]
      && (forall i :: 0 <= i < |old(store.flows)| ==> old(store.flows)[i].id != r.value)
    ensures r.Success? && ToInt32(payload.value.numPointsToDebit) > 0 ==>
      && Total(store.flows, caller) == old(Total(store.flows, caller))
      && Available(store.flows, caller) == old(Available(store.flows, caller)) - ToInt32(payload.value.numPointsToDebit)
    ensures r.Success? && ToInt32(payload.value.numPointsToDebit) < 0 ==>
      && Total(store.flows, caller) == old(Total(store.flows, caller)) - ToInt32(payload.value.numPointsToDebit)
      && Total(store.flows, caller) > old(Total(store.flows, caller))
      && Available(store.flows, caller) == old(Available(store.flows, caller))
  {
    var validated := ValidateRequestAsWritten(contentType, payload);
    if validated.Failure? {
      return Failure(validated.error);
    }
    var req := validated.value;
    if balanceFault.Some? {
      return Failure(HttpError(InternalServerError, balanceFault.value));
    }
    var available := AvailableForDebit(store.flows, caller);
    var debit := DebitAsWritten(available, req.numPointsToDebit);
    if debit.Failure? {
      return Failure(debit.error);
    }
    if insertFault.Some? {
      return Failure(HttpError(InternalServerError, insertFault.value));
    }
    var before := store.flows;
    var id := store.RecordPendingAlertRedemptionOutflow(caller, req.alertType, req.alertMetadata, debit.value, now);
    AppendShares(before, store.flows[|before|], caller);
    assert before + [store.flows[|before|]] == store.flows;
    return Success(id);
  }

  /** The ownership and state checks on the looked-up row, in source order. */
  function FinalizeCheck(row: Option<Flow>, caller: AccountId): (r: Option<HttpError>)
    ensures r.None? <==> row.Some? && row.value.account == caller && row.value.IsPending()
    ensures (row.None? || row.value.account != caller) ==> r == Some(HttpError(NotFound, "no such transaction"))
    ensures row.Some? && row.value.account == caller && !row.value.IsPending() ==>
      r == Some(HttpError(Conflict, "transaction is not pending"))
  {
    if row.None? then Some(HttpError(NotFound, "no such transaction"))
    else if row.value.account != caller then Some(HttpError(NotFound, "no such transaction"))
    else if !row.value.IsPending() then Some(HttpError(Conflict, "transaction is not pending"))
    else None
  }

  /** PATCH accepts the debit; DELETE rejects it. */
  function AcceptsFor(verb: HttpMethod): (accepted: bool)
    ensures accepted <==> verb == Patch
  {
    verb != Delete
  }

  /**
    handleFinalizeOutflow for an authenticated caller. `flowId` is the parsed
    `{id}` path segment (or the parser's error); `lookupFault` is a GetFlow
    error other than "no rows". `None` stands for 204 No Content.
  */
  method HandleFinalizeOutflow(store: Store, caller: AccountId, flowId: Result<FlowId, string>, verb: HttpMethod,
                               lookupFault: Option<string>, now: Timestamp) returns (r: Option<HttpError>)
    requires store.Valid()
    modifies store
    ensures store.Valid() && store.nextId == old(store.nextId)
    ensures r.Some? ==> store.flows == old(store.flows)
    ensures flowId.Failure? ==> r == Some(HttpError(InternalServerError, flowId.error))
    ensures flowId.Success? && lookupFault.None? ==>
      r == FinalizeCheck(GetFlow(old(store.flows), flowId.value), caller)
    ensures r.None? <==> flowId.Success? && lookupFault.None? && FinalizeCheck(GetFlow(old(store.flows), flowId.value), caller).None?
    ensures r.None? ==> store.flows == Finalized(old(store.flows), flowId.value, verb == Patch, now)
  {
    if flowId.Failure? {
      return Some(HttpError(InternalServerError, flowId.error));
    }
    var id := flowId.value;
    if lookupFault.Some? {
      return Some(HttpError(InternalServerError, lookupFault.value));
    }
    var row := GetFlow(store.flows, id);
    var refusal := FinalizeCheck(row, caller);
    if refusal.Some? {
      return refusal;
    }
    var accepted := AcceptsFor(verb);
    var rowsAffected := store.FinalizeFlow(id, accepted, now);
    // The row was pending a moment ago and nothing ran in between, so the
    // `numRows != 1` guard of the source cannot fire in this model.
    assert rowsAffected == 1;
    return None;
  }

  /** A finalized debit can never be finalized again through the handler: the second call is a conflict. */
  lemma SecondFinalizeConflicts(flows: seq<Flow>, caller: AccountId, id: FlowId, a1: bool, t1: Timestamp)
    requires WellFormed(flows)
    requires FinalizeCheck(GetFlow(flows, id), caller).None?
    ensures FinalizeCheck(GetFlow(Finalized(flows, id, a1, t1), id), caller) == Some(HttpError(Conflict, "transaction is not pending"))
  {
    var i := IndexOf(flows, id).value;
    FinalizedIsUpdate(flows, i, a1, t1);
    var after := Finalized(flows, id, a1, t1);
    assert after[i].id == id;
    FinalizePreservesWellFormed(flows, id, a1, t1);
    IndexOfUnique(after, i);
  }
}
