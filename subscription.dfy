/**
 * POST /inflow/subscription and POST /inflow/gift-sub
 * (internal/subscription/server.go): an internal service credits a viewer
 * for subscribing or for gifting subscriptions. Each handler checks its
 * request in order, computes the credit, and records one finalized, accepted
 * inflow for the caller.
 *
 * Credit multipliers are whole numbers here (the source takes a float64; see
 * the README). Decoding and the store's answer are inputs.
 */
module Subscription {
  import opened Wrappers
  import opened Numbers
  import opened LedgerTypes

  /** The decoded subscription request body. */
  datatype SubscriptionRequest = SubscriptionRequest(
    basePointsToCredit: int,
    isInitial: bool,
    isGift: bool,
    message: string,
    creditMultiplier: int)

  /** The decoded gift-sub request body. */
  datatype GiftSubRequest = GiftSubRequest(basePointsToCredit: int, numSubscriptions: int, creditMultiplier: int)

  /** The arguments of the RecordSubscriptionInflow insert (the amount column is an `int32`). */
  datatype RecordSubscriptionInflowParams = RecordSubscriptionInflowParams(
    twitchUserId: AccountId,
    numPointsToCredit: int,
    message: string,
    isInitial: bool,
    isGift: bool,
    creditMultiplier: int)

  /** The arguments of the RecordGiftSubInflow insert (amount and count are `int32` columns). */
  datatype RecordGiftSubInflowParams = RecordGiftSubInflowParams(
    twitchUserId: AccountId,
    numPointsToCredit: int,
    numSubscriptions: int,
    creditMultiplier: int)

  const BaseNotPositiveMessage := "invalid request payload: 'basePointsToCredit' must be set to a positive integer"
  const MultiplierNotPositiveMessage := "invalid request payload: 'creditMultiplier' must be set to a positive number"
  const NumSubscriptionsNotPositiveMessage := "invalid request payload: 'numSubscriptions' must be set to a positive integer"

  /** A subscription's credit: the rounded product of base and multiplier, converted with `int32(...)`. */
  function SubscriptionCredit(basePointsToCredit: int, creditMultiplier: int): (n: int)
    ensures InInt32(n)
    ensures InInt32(basePointsToCredit * creditMultiplier) ==> n == basePointsToCredit * creditMultiplier
  {
    ToInt32(basePointsToCredit * creditMultiplier)
  }

  /**
   * A gift's credit: base × count × `int(multiplier)` in Go's 64-bit `int`,
   * then `int32(...)`. The source truncates the `float64` multiplier toward
   * zero before multiplying; the model's multiplier is already whole, so the
   * truncation is the identity here. The low 32 bits of a 64-bit wrapped
   * product are those of the exact product, so the 64-bit step needs no
   * separate treatment.
   */
  function GiftSubCredit(basePointsToCredit: int, numSubscriptions: int, creditMultiplier: int): (n: int)
    ensures InInt32(n)
    ensures InInt32(basePointsToCredit * numSubscriptions * creditMultiplier) ==>
      n == basePointsToCredit * numSubscriptions * creditMultiplier
  {
    ToInt32(basePointsToCredit * numSubscriptions * creditMultiplier)
  }

  function ValidateSubscription(caller: AccountId, contentType: string, payload: Result<SubscriptionRequest, string>): (r: Result<RecordSubscriptionInflowParams, HttpError>)
    ensures r.Success? <==> ContentTypeAcceptsJson(contentType) && payload.Success?
                            && payload.value.basePointsToCredit > 0 && payload.value.creditMultiplier > 0
    ensures r.Failure? ==> r.error.status == BadRequest
    ensures !ContentTypeAcceptsJson(contentType) ==> r == Failure(HttpError(BadRequest, "content-type not supported"))
    ensures ContentTypeAcceptsJson(contentType) && payload.Failure? ==>
      r == Failure(HttpError(BadRequest, "invalid request payload: " + payload.error))
    ensures ContentTypeAcceptsJson(contentType) && payload.Success? && payload.value.basePointsToCredit <= 0 ==>
      r == Failure(HttpError(BadRequest, BaseNotPositiveMessage))
    ensures ContentTypeAcceptsJson(contentType) && payload.Success? && payload.value.basePointsToCredit > 0
            && payload.value.creditMultiplier <= 0 ==>
      r == Failure(HttpError(BadRequest, MultiplierNotPositiveMessage))
    ensures r.Success? ==>
      var req := payload.value;
      r.value == RecordSubscriptionInflowParams(caller, SubscriptionCredit(req.basePointsToCredit, req.creditMultiplier),
                                                TruncateMessage(req.message), req.isInitial, req.isGift, req.creditMultiplier)
  {
    if !ContentTypeAcceptsJson(contentType) then Failure(HttpError(BadRequest, "content-type not supported"))
    else if payload.Failure? then Failure(HttpError(BadRequest, "invalid request payload: " + payload.error))
    else if payload.value.basePointsToCredit <= 0 then Failure(HttpError(BadRequest, BaseNotPositiveMessage))
    else if payload.value.creditMultiplier <= 0 then Failure(HttpError(BadRequest, MultiplierNotPositiveMessage))
    else
      var req := payload.value;
      Success(RecordSubscriptionInflowParams(caller, SubscriptionCredit(req.basePointsToCredit, req.creditMultiplier),
                                             TruncateMessage(req.message), req.isInitial, req.isGift, req.creditMultiplier))
  }

  /**
   * Whether the sub is a gift or an initial one never changes the credit, and
   * within `int32` the credit is exactly base × multiplier, at least the base.
   */
  lemma SubscriptionCreditIgnoresFlags(caller: AccountId, contentType: string, req: SubscriptionRequest, isInitial: bool, isGift: bool)
    requires ValidateSubscription(caller, contentType, Success(req)).Success?
    ensures var other := req.(isInitial := isInitial, isGift := isGift);
      ValidateSubscription(caller, contentType, Success(other)).Success?
      && ValidateSubscription(caller, contentType, Success(other)).value.numPointsToCredit
         == ValidateSubscription(caller, contentType, Success(req)).value.numPointsToCredit
    ensures req.basePointsToCredit * req.creditMultiplier <= MaxInt32 ==>
      req.basePointsToCredit <= ValidateSubscription(caller, contentType, Success(req)).value.numPointsToCredit
         == req.basePointsToCredit * req.creditMultiplier
  {
    var b, m := req.basePointsToCredit, req.creditMultiplier;
    assert b * m >= b * 1;
  }

  function ValidateGiftSub(caller: AccountId, contentType: string, payload: Result<GiftSubRequest, string>): (r: Result<RecordGiftSubInflowParams, HttpError>)
    ensures r.Success? <==> ContentTypeAcceptsJson(contentType) && payload.Success?
                            && payload.value.basePointsToCredit > 0 && payload.value.numSubscriptions > 0
                            && payload.value.creditMultiplier > 0
    ensures r.Failure? ==> r.error.status == BadRequest
    ensures !ContentTypeAcceptsJson(contentType) ==> r == Failure(HttpError(BadRequest, "content-type not supported"))
    ensures ContentTypeAcceptsJson(contentType) && payload.Failure? ==>
      r == Failure(HttpError(BadRequest, "invalid request payload: " + payload.error))
    ensures ContentTypeAcceptsJson(contentType) && payload.Success? && payload.value.basePointsToCredit <= 0 ==>
      r == Failure(HttpError(BadRequest, BaseNotPositiveMessage))
    ensures ContentTypeAcceptsJson(contentType) && payload.Success? && payload.value.basePointsToCredit > 0
            && payload.value.numSubscriptions <= 0 ==>
      r == Failure(HttpError(BadRequest, NumSubscriptionsNotPositiveMessage))
    ensures ContentTypeAcceptsJson(contentType) && payload.Success? && payload.value.basePointsToCredit > 0
            && payload.value.numSubscriptions > 0 && payload.value.creditMultiplier <= 0 ==>
      r == Failure(HttpError(BadRequest, MultiplierNotPositiveMessage))
    ensures r.Success? ==>
      var req := payload.value;
      r.value == RecordGiftSubInflowParams(caller, GiftSubCredit(req.basePointsToCredit, req.numSubscriptions, req.creditMultiplier),
                                           ToInt32(req.numSubscriptions), req.creditMultiplier)
  {
    if !ContentTypeAcceptsJson(contentType) then Failure(HttpError(BadRequest, "content-type not supported"))
    else if payload.Failure? then Failure(HttpError(BadRequest, "invalid request payload: " + payload.error))
    else if payload.value.basePointsToCredit <= 0 then Failure(HttpError(BadRequest, BaseNotPositiveMessage))
    else if payload.value.numSubscriptions <= 0 then Failure(HttpError(BadRequest, NumSubscriptionsNotPositiveMessage))
    else if payload.value.creditMultiplier <= 0 then Failure(HttpError(BadRequest, MultiplierNotPositiveMessage))
    else
      var req := payload.value;
      Success(RecordGiftSubInflowParams(caller, GiftSubCredit(req.basePointsToCredit, req.numSubscriptions, req.creditMultiplier),
                                        ToInt32(req.numSubscriptions), req.creditMultiplier))
  }

  /**
   * Within `int32`, gifting more subs never earns less: the credit grows by
   * base × multiplier for every further sub.
   */
  lemma GiftSubCreditPerSub(caller: AccountId, contentType: string, req: GiftSubRequest)
    requires ValidateGiftSub(caller, contentType, Success(req)).Success?
    requires InInt32(req.basePointsToCredit * (req.numSubscriptions + 1) * req.creditMultiplier)
    ensures var more := req.(numSubscriptions := req.numSubscriptions + 1);
      ValidateGiftSub(caller, contentType, Success(more)).Success?
      && ValidateGiftSub(caller, contentType, Success(more)).value.numPointsToCredit
         == ValidateGiftSub(caller, contentType, Success(req)).value.numPointsToCredit
            + req.basePointsToCredit * req.creditMultiplier
  {
    var b, n, m := req.basePointsToCredit, req.numSubscriptions, req.creditMultiplier;
    assert b * (n + 1) * m == b * n * m + b * m;
    assert 0 < b * n * m <= b * (n + 1) * m by {
      assert b * n > 0;
      assert b * n * m >= b * n;
      assert b * m > 0;
    }
  }
}
