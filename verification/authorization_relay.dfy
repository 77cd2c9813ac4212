/**
 * The result record the authorization delegate assembles from the platform's
 * payment: the token's transaction identifier and decoded payment data, and
 * the payment method with its type classified.
 */
module AuthorizationRelay {
  import opened Wrappers
  import opened Values

  /** The kinds of payment method the platform reports. */
  datatype PaymentMethodType = UnknownType | Debit | Credit | Prepaid | Store | EMoney

  /** What the platform reports about the payment method; absent fields are `None`. */
  datatype PaymentMethod = PaymentMethod(displayName: Option<string>, network: Option<string>, kind: PaymentMethodType)

  /**
   * The authorized payment as the delegate sees it. `paymentDataText` is the
   * token's bytes decoded as UTF-8 by the platform, `None` when they are not
   * valid UTF-8; `network` is the platform's raw network value.
   */
  datatype Payment = Payment(transactionIdentifier: string, paymentDataText: Option<string>, paymentMethod: PaymentMethod)

  /** The method kinds the classification names; every other kind reads as "unknown". */
  predicate IsNamedKind(t: PaymentMethodType) {
    t.Debit? || t.Credit? || t.Store? || t.Prepaid?
  }

  /**
   * The classification of the payment-method type: a named kind gets a name
   * that reads back as itself, every other kind gets "unknown".
   */
  function TypeName(t: PaymentMethodType): (r: string)
    ensures IsNamedKind(t) ==> KindOfName(r) == t
    ensures !IsNamedKind(t) ==> r == "unknown"
  {
    match t
    case Debit => "debit"
    case Credit => "credit"
    case Store => "store"
    case Prepaid => "prepaid"
    case _ => "unknown"
  }

  /** Reading a classification back: the partner of `TypeName`. */
  function KindOfName(name: string): PaymentMethodType {
    match name
    case "debit" => Debit
    case "credit" => Credit
    case "store" => Store
    case "prepaid" => Prepaid
    case _ => UnknownType
  }

  /**
   * The four named kinds survive classification and reading back; every
   * other kind, present or future, classifies as "unknown".
   */
  lemma TypeNameRoundTrip(t: PaymentMethodType)
    ensures KindOfName(TypeName(t)) == (if IsNamedKind(t) then t else UnknownType)
    ensures TypeName(t) == "unknown" <==> !IsNamedKind(t)
  {
  }

  /** The method summary exactly as serialised. */
  datatype MethodSummary = MethodSummary(displayName: string, network: string, typeName: string)

  /** The authorization result exactly as serialised. */
  datatype AuthorizationResult = AuthorizationResult(transactionIdentifier: string, paymentData: string, paymentMethod: MethodSummary)

  /**
   * The delegate's extraction: undecodable payment data becomes "", a present
   * display name or raw network value is copied and an absent one becomes "",
   * and the method type is classified.
   */
  function Summarize(p: Payment): (r: AuthorizationResult)
    ensures r.transactionIdentifier == p.transactionIdentifier
    ensures p.paymentDataText.Some? ==> r.paymentData == p.paymentDataText.value
    ensures p.paymentDataText.None? ==> r.paymentData == ""
    ensures p.paymentMethod.displayName.Some? ==> r.paymentMethod.displayName == p.paymentMethod.displayName.value
    ensures p.paymentMethod.displayName.None? ==> r.paymentMethod.displayName == ""
    ensures p.paymentMethod.network.Some? ==> r.paymentMethod.network == p.paymentMethod.network.value
    ensures p.paymentMethod.network.None? ==> r.paymentMethod.network == ""
    ensures !IsNamedKind(p.paymentMethod.kind) ==> r.paymentMethod.typeName == "unknown"
    ensures KindOfName(r.paymentMethod.typeName) == (if IsNamedKind(p.paymentMethod.kind) then p.paymentMethod.kind else UnknownType)
  {
    TypeNameRoundTrip(p.paymentMethod.kind);
    AuthorizationResult(
      p.transactionIdentifier,
      p.paymentDataText.GetOr(""),
      MethodSummary(p.paymentMethod.displayName.GetOr(""), p.paymentMethod.network.GetOr(""), TypeName(p.paymentMethod.kind)))
  }

  /** The dictionary handed to the JSON serialiser. */
  function ToValue(a: AuthorizationResult): (r: Value)
    ensures r.Dict? && r.fields.Keys == {"transactionIdentifier", "paymentData", "paymentMethod"}
    ensures r.fields["paymentMethod"].Dict?
    ensures r.fields["paymentMethod"].fields.Keys == {"displayName", "network", "type"}
  {
    Dict(map[
      "transactionIdentifier" := Str(a.transactionIdentifier),
      "paymentData" := Str(a.paymentData),
      "paymentMethod" := Dict(map[
        "displayName" := Str(a.paymentMethod.displayName),
        "network" := Str(a.paymentMethod.network),
        "type" := Str(a.paymentMethod.typeName)])])
  }

  function StringField(fields: map<string, Value>, key: string): Option<string> {
    if key in fields && fields[key].Str? then Some(fields[key].s) else None
  }

  /** How a caller reads the dictionary back: the partner of `ToValue`. */
  function FromValue(v: Value): Option<AuthorizationResult> {
    if !v.Dict? || "paymentMethod" !in v.fields || !v.fields["paymentMethod"].Dict? then None
    else
      var top := v.fields;
      var summary := top["paymentMethod"].fields;
      match (StringField(top, "transactionIdentifier"), StringField(top, "paymentData"),
             StringField(summary, "displayName"), StringField(summary, "network"), StringField(summary, "type"))
      case (Some(id), Some(data), Some(name), Some(network), Some(kind)) =>
        Some(AuthorizationResult(id, data, MethodSummary(name, network, kind)))
      case _ => None
  }

  /** The stashed dictionary carries every field of the result, and nothing is lost. */
  lemma FromValueToValue(a: AuthorizationResult)
    ensures FromValue(ToValue(a)) == Some(a)
  {
  }

  /** The record the authorization delegate stashes for a payment. */
  function ResultRecord(p: Payment): (r: Value)
    ensures FromValue(r) == Some(Summarize(p))
    ensures r.Dict? && r.fields.Keys == {"transactionIdentifier", "paymentData", "paymentMethod"}
    ensures r.fields["paymentMethod"].Dict?
    ensures r.fields["paymentMethod"].fields.Keys == {"displayName", "network", "type"}
  {
    FromValueToValue(Summarize(p));
    ToValue(Summarize(p))
  }
}
