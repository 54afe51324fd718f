/**
  The flow `metadata` column is a jsonb document. Only flat objects matter to
  the ledger: the store writes them, and the description renderer decodes them
  with `json.Unmarshal` into small structs. This module models both sides.
*/
module Json {
  import opened Wrappers
  import opened Numbers

  /** A member value. Arrays, nested objects and non-integral numbers are `Composite`. */
  datatype Value = Null | Bool(b: bool) | Number(n: int) | String(s: string) | Composite

  /** A whole metadata document, as `json.Unmarshal` into a struct sees it. */
  datatype Document = Object(fields: map<string, Value>) | NullDocument | NotAnObject

  /** The Go type of a struct field: string, bool, float64 or int. */
  datatype Kind = StringKind | BoolKind | FloatKind | IntKind

  /** `json.Unmarshal` accepts `v` for a field of kind `k` (JSON null leaves the zero value). */
  predicate Fits(v: Value, k: Kind)
  {
    match v
    case Null => true
    case Bool(_) => k == BoolKind
    case Number(n) => k == FloatKind || (k == IntKind && MinInt64 <= n <= MaxInt64)
    case String(_) => k == StringKind
    case Composite => false
  }

  predicate FieldFits(doc: Document, key: string, k: Kind)
  {
    doc.Object? && key in doc.fields ==> Fits(doc.fields[key], k)
  }

  /**
    Unmarshalling into a struct with the given fields succeeds: the document is
    an object (or null) and every declared field that is present fits its kind.
    Keys the struct does not declare are ignored.
  */
  predicate Decodes(doc: Document, schema: seq<(string, Kind)>)
  {
    !doc.NotAnObject? && forall i :: 0 <= i < |schema| ==> FieldFits(doc, schema[i].0, schema[i].1)
  }

  function StringField(doc: Document, key: string): string
  {
    if doc.Object? && key in doc.fields && doc.fields[key].String? then doc.fields[key].s else ""
  }

  function BoolField(doc: Document, key: string): bool
  {
    doc.Object? && key in doc.fields && doc.fields[key].Bool? && doc.fields[key].b
  }

  function NumberField(doc: Document, key: string): int
  {
    if doc.Object? && key in doc.fields && doc.fields[key].Number? then doc.fields[key].n else 0
  }

  // The five metadata structs of internal/util/transaction.go and internal/records/history.go.

  datatype ManualCreditMetadata = ManualCreditMetadata(note: string)
  datatype AlertRedemptionMetadata = AlertRedemptionMetadata(alertType: string)
  datatype CheerMetadata = CheerMetadata(message: string)
  /** The credit multiplier is a float64 in the source; the model admits whole numbers only. */
  datatype SubscriptionMetadata = SubscriptionMetadata(message: string, isInitial: bool, isGift: bool, creditMultiplier: int)
  datatype GiftSubMetadata = GiftSubMetadata(numSubscriptions: int, creditMultiplier: int)

  const ManualCreditSchema: seq<(string, Kind)> := [("note", StringKind)]
  const AlertRedemptionSchema: seq<(string, Kind)> := [("type", StringKind)]
  const CheerSchema: seq<(string, Kind)> := [("message", StringKind)]
  const SubscriptionSchema: seq<(string, Kind)> :=
    [("message", StringKind), ("is_initial", BoolKind), ("is_gift", BoolKind), ("credit_multiplier", FloatKind)]
  const GiftSubSchema: seq<(string, Kind)> := [("num_subscriptions", IntKind), ("credit_multiplier", FloatKind)]

  function DecodeManualCredit(doc: Document): Option<ManualCreditMetadata>
  {
    if Decodes(doc, ManualCreditSchema) then Some(ManualCreditMetadata(StringField(doc, "note"))) else None
  }

  function DecodeAlertRedemption(doc: Document): Option<AlertRedemptionMetadata>
  {
    if Decodes(doc, AlertRedemptionSchema) then Some(AlertRedemptionMetadata(StringField(doc, "type"))) else None
  }

  function DecodeCheer(doc: Document): Option<CheerMetadata>
  {
    if Decodes(doc, CheerSchema) then Some(CheerMetadata(StringField(doc, "message"))) else None
  }

  function DecodeSubscription(doc: Document): Option<SubscriptionMetadata>
  {
    if Decodes(doc, SubscriptionSchema) then
      Some(SubscriptionMetadata(StringField(doc, "message"), BoolField(doc, "is_initial"),
                                BoolField(doc, "is_gift"), NumberField(doc, "credit_multiplier")))
    else None
  }

  function DecodeGiftSub(doc: Document): Option<GiftSubMetadata>
  {
    if Decodes(doc, GiftSubSchema) then
      Some(GiftSubMetadata(NumberField(doc, "num_subscriptions"), NumberField(doc, "credit_multiplier")))
    else None
  }

  // The documents the store writes when it records each kind of flow.

  function EncodeManualCredit(note: string): Document
  {
    Object(map["note" := String(note)])
  }

  /** The caller's optional alert metadata object, with `type` set to the alert type. */
  function EncodeAlertRedemption(alertType: string, alertMetadata: Option<map<string, Value>>): Document
  {
    Object(alertMetadata.GetOr(map[])["type" := String(alertType)])
  }

  function EncodeCheer(message: string): Document
  {
    Object(map["message" := String(message)])
  }

  function EncodeSubscription(md: SubscriptionMetadata): Document
  {
    Object(map["message" := String(md.message), "is_initial" := Bool(md.isInitial),
               "is_gift" := Bool(md.isGift), "credit_multiplier" := Number(md.creditMultiplier)])
  }

  function EncodeGiftSub(md: GiftSubMetadata): Document
  {
    Object(map["num_subscriptions" := Number(md.numSubscriptions), "credit_multiplier" := Number(md.creditMultiplier)])
  }

  /** A document that is not a JSON object or null decodes to nothing, whatever the struct. */
  lemma NotAnObjectNeverDecodes(schema: seq<(string, Kind)>)
    ensures !Decodes(NotAnObject, schema)
  {
  }

  // Every document the store writes decodes back to what was written.

  lemma DecodeEncodedManualCredit(note: string)
    ensures DecodeManualCredit(EncodeManualCredit(note)) == Some(ManualCreditMetadata(note))
  {
  }

  lemma DecodeEncodedAlertRedemption(alertType: string, extra: Option<map<string, Value>>)
    ensures DecodeAlertRedemption(EncodeAlertRedemption(alertType, extra)) == Some(AlertRedemptionMetadata(alertType))
  {
  }

  lemma DecodeEncodedCheer(message: string)
    ensures DecodeCheer(EncodeCheer(message)) == Some(CheerMetadata(message))
  {
  }

  lemma DecodeEncodedSubscription(md: SubscriptionMetadata)
    ensures DecodeSubscription(EncodeSubscription(md)) == Some(md)
  {
    assert Decodes(EncodeSubscription(md), SubscriptionSchema) by {
      forall i | 0 <= i < |SubscriptionSchema|
        ensures FieldFits(EncodeSubscription(md), SubscriptionSchema[i].0, SubscriptionSchema[i].1)
      {
      }
    }
  }

  lemma DecodeEncodedGiftSub(md: GiftSubMetadata)
    requires MinInt64 <= md.numSubscriptions <= MaxInt64
    ensures DecodeGiftSub(EncodeGiftSub(md)) == Some(md)
  {
    assert Decodes(EncodeGiftSub(md), GiftSubSchema) by {
      forall i | 0 <= i < |GiftSubSchema|
        ensures FieldFits(EncodeGiftSub(md), GiftSubSchema[i].0, GiftSubSchema[i].1)
      {
      }
    }
  }
}
