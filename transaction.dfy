/**
  internal/util/transaction.go: how a flow row becomes the Transaction that
  real-time subscribers receive — display state, display timestamp, and a
  description built from the flow type and its decoded metadata.
*/
module Transactions {
  import opened Wrappers
  import opened Numbers
  import opened Json
  import opened LedgerTypes

  /** pending while unfinalized; otherwise accepted or rejected per the stored flag. */
  function DisplayState(finalizedAt: Option<Timestamp>, accepted: bool): (s: TransactionState)
    ensures s == Pending <==> finalizedAt.None?
    ensures s == Accepted <==> finalizedAt.Some? && accepted
    ensures s == Rejected <==> finalizedAt.Some? && !accepted
  {
    if finalizedAt.None? then Pending else if accepted then Accepted else Rejected
  }

  /** The finalization time once there is one, the creation time before. */
  function DisplayTimestamp(createdAt: Timestamp, finalizedAt: Option<Timestamp>): Timestamp
  {
    finalizedAt.GetOr(createdAt)
  }

  /** `" (at a tier with %.fx credit)"`, written only when the multiplier exceeds 1.001. */
  function TierSuffix(creditMultiplier: int): (s: string)
    ensures s == "" <==> creditMultiplier < 2
    ensures creditMultiplier >= 2 ==> s == " (at a tier with " + DecimalString(creditMultiplier) + "x credit)"
  {
    if creditMultiplier >= 2 then " (at a tier with " + DecimalString(creditMultiplier) + "x credit)" else ""
  }

  /** `" with the message '<m>'"` for a non-empty message. */
  function MessageSuffix(message: string): (s: string)
    ensures s == "" <==> message == ""
    ensures message != "" ==> s == " with the message '" + message + "'"
  {
    if message == "" then "" else " with the message '" + message + "'"
  }

  function ManualCreditDescription(md: Option<ManualCreditMetadata>): string
  {
    "Manual credit" + (if md.Some? then ": " + md.value.note else "")
  }

  function AlertRedemptionDescription(md: Option<AlertRedemptionMetadata>): string
  {
    "Redeemed alert" + (if md.Some? then " of type '" + md.value.alertType + "'" else "")
  }

  function CheerDescription(md: Option<CheerMetadata>): string
  {
    "Thank you for cheering" + (if md.Some? then MessageSuffix(md.value.message) else "") + "!"
  }

  function SubscriptionPrefix(md: SubscriptionMetadata): string
  {
    if md.isGift then "You received a gift sub"
    else if md.isInitial then "Thank you for becoming a subscriber"
    else "Thank you for renewing your subscription"
  }

  function SubscriptionDescription(md: Option<SubscriptionMetadata>): string
  {
    match md
    case None => "Thank you for being a subscriber!"
    case Some(m) => SubscriptionPrefix(m) + TierSuffix(m.creditMultiplier) + MessageSuffix(m.message) + "!"
  }

  function GiftSubDescription(md: Option<GiftSubMetadata>): string
  {
    match md
    case None => "Thank you for gifting subs!"
    case Some(m) =>
      (if m.numSubscriptions == 1 then "Thank you for gifting a sub"
       else "Thank you for gifting " + DecimalString(m.numSubscriptions) + " subs")
      + TierSuffix(m.creditMultiplier) + "!"
  }

  /** `formatTransactionDescription`: dispatch on the flow type; unknown types get no description. */
  function Describe(flowType: FlowType, metadata: Document): (d: string)
    ensures flowType.Unrecognized? <==> d == ""
    ensures flowType == ManualCredit ==> "Manual credit" <= d
    ensures flowType == AlertRedemption ==> "Redeemed alert" <= d
    ensures flowType in {Cheer, Subscription, GiftSub} ==> d[|d| - 1] == '!'
  {
    match flowType
    case ManualCredit => ManualCreditDescription(DecodeManualCredit(metadata))
    case AlertRedemption => AlertRedemptionDescription(DecodeAlertRedemption(metadata))
    case Cheer => CheerDescription(DecodeCheer(metadata))
    case Subscription => SubscriptionDescription(DecodeSubscription(metadata))
    case GiftSub => GiftSubDescription(DecodeGiftSub(metadata))
    case Unrecognized(_) => ""
  }

  /** `BuildTransaction`: the Transaction a subscriber receives for one flow row. */
  function BuildTransaction(id: FlowId, flowType: FlowType, metadata: Document, deltaPoints: int,
                            createdAt: Timestamp, finalizedAt: Option<Timestamp>, accepted: bool): (t: Transaction)
    ensures t.id == id && t.flowType == flowType && t.deltaPoints == deltaPoints
    ensures t.state == Pending <==> finalizedAt.None?
    ensures t.state == Accepted <==> finalizedAt.Some? && accepted
    ensures t.state == Rejected <==> finalizedAt.Some? && !accepted
    ensures t.timestamp == if finalizedAt.Some? then finalizedAt.value else createdAt
    ensures t.description == Describe(flowType, metadata)
  {
    Transaction(id, DisplayTimestamp(createdAt, finalizedAt), flowType,
                DisplayState(finalizedAt, accepted), deltaPoints, Describe(flowType, metadata))
  }

  // The descriptions of the flows the store writes, spelled out per type.

  lemma DescribeRecordedManualCredit(note: string)
    ensures Describe(ManualCredit, EncodeManualCredit(note)) == "Manual credit: " + note
  {
    DecodeEncodedManualCredit(note);
  }

  lemma DescribeRecordedAlertRedemption(alertType: string, extra: Option<map<string, Value>>)
    ensures Describe(AlertRedemption, EncodeAlertRedemption(alertType, extra)) == "Redeemed alert of type '" + alertType + "'"
  {
    DecodeEncodedAlertRedemption(alertType, extra);
  }

  lemma DescribeRecordedCheer(message: string)
    ensures message != "" ==> Describe(Cheer, EncodeCheer(message)) == "Thank you for cheering with the message '" + message + "'!"
    ensures message == "" ==> Describe(Cheer, EncodeCheer(message)) == "Thank you for cheering!"
  {
    DecodeEncodedCheer(message);
  }

  /** Gift beats initial beats renewal; the tier and the message only follow the prefix. */
  lemma DescribeRecordedSubscription(md: SubscriptionMetadata)
    ensures md.isGift ==> "You received a gift sub" <= Describe(Subscription, EncodeSubscription(md))
    ensures !md.isGift && md.isInitial ==> "Thank you for becoming a subscriber" <= Describe(Subscription, EncodeSubscription(md))
    ensures !md.isGift && !md.isInitial ==> "Thank you for renewing your subscription" <= Describe(Subscription, EncodeSubscription(md))
    ensures md.creditMultiplier < 2 && md.message == "" ==>
      Describe(Subscription, EncodeSubscription(md)) == SubscriptionPrefix(md) + "!"
    ensures Describe(Subscription, EncodeSubscription(md))
            == SubscriptionPrefix(md) + TierSuffix(md.creditMultiplier) + MessageSuffix(md.message) + "!"
  {
    DecodeEncodedSubscription(md);
    var d := Describe(Subscription, EncodeSubscription(md));
    var p := SubscriptionPrefix(md);
    assert d == p + (TierSuffix(md.creditMultiplier) + MessageSuffix(md.message) + "!");
  }

  lemma DescribeRecordedGiftSub(md: GiftSubMetadata)
    requires MinInt64 <= md.numSubscriptions <= MaxInt64
    ensures md.numSubscriptions == 1 && md.creditMultiplier < 2 ==>
      Describe(GiftSub, EncodeGiftSub(md)) == "Thank you for gifting a sub!"
    ensures md.numSubscriptions != 1 && md.creditMultiplier < 2 ==>
      Describe(GiftSub, EncodeGiftSub(md)) == "Thank you for gifting " + DecimalString(md.numSubscriptions) + " subs!"
    ensures Describe(GiftSub, EncodeGiftSub(md))
            == (if md.numSubscriptions == 1 then "Thank you for gifting a sub"
                else "Thank you for gifting " + DecimalString(md.numSubscriptions) + " subs")
               + TierSuffix(md.creditMultiplier) + "!"
  {
    DecodeEncodedGiftSub(md);
  }

  /** Metadata that is not a JSON object leaves only the fixed part of each description. */
  lemma DescribeUndecodable(t: FlowType)
    ensures t == ManualCredit ==> Describe(t, NotAnObject) == "Manual credit"
    ensures t == AlertRedemption ==> Describe(t, NotAnObject) == "Redeemed alert"
    ensures t == Cheer ==> Describe(t, NotAnObject) == "Thank you for cheering!"
    ensures t == Subscription ==> Describe(t, NotAnObject) == "Thank you for being a subscriber!"
    ensures t == GiftSub ==> Describe(t, NotAnObject) == "Thank you for gifting subs!"
  {
    NotAnObjectNeverDecodes(ManualCreditSchema);
    NotAnObjectNeverDecodes(AlertRedemptionSchema);
    NotAnObjectNeverDecodes(CheerSchema);
    NotAnObjectNeverDecodes(SubscriptionSchema);
    NotAnObjectNeverDecodes(GiftSubSchema);
  }
}
