/**
 * The validation and translation step of `requestPayment`: the required keys
 * read in a fixed order through `getFromRequest`, the forced casts that follow
 * each read, and the request-path network and capability conversions.
 */
module RequestBuilder {
  import opened Wrappers
  import opened Values
  import opened Text
  import opened Decimal
  import CapabilityProber

  /** The keys `requestPayment` reads, in the order it reads them. */
  const RequiredKeys: seq<string> := [
    "countryCode", "currencyCode", "merchantIdentifier",
    "supportedNetworks", "merchantCapabilities", "paymentSummaryItems"
  ]

  /** The Swift type each required key is force-cast to once read. */
  datatype FieldKind = TextField | TextListField | ItemListField

  const RequiredKinds: seq<FieldKind> := [
    TextField, TextField, TextField, TextListField, TextListField, ItemListField
  ]

  /** The error message for a missing key. */
  function RequiredMessage(key: string): string {
    key + " is required"
  }

  /** `getFromRequest`: the value under `key`, or the "is required" error naming it. */
  function GetFromRequest(args: map<string, Value>, key: string): (r: Result<Value, string>)
    ensures r.Success? <==> key in args
    ensures r.Success? ==> r.value == args[key]
    ensures r.Failure? ==> r.error == RequiredMessage(key)
  {
    if key in args then Success(args[key]) else Failure(RequiredMessage(key))
  }

  /** A summary item as `item["label"] as! String` and `item["amount"] as? String` read it. */
  predicate IsSummaryItem(v: Value) {
    v.Dict? && "label" in v.fields && v.fields["label"].Str?
  }

  /** Whether a value survives the forced cast to the given kind. */
  predicate Fits(v: Value, kind: FieldKind) {
    match kind
    case TextField => v.Str?
    case TextListField => IsStringList(v)
    case ItemListField => v.List? && forall k :: 0 <= k < |v.items| ==> IsSummaryItem(v.items[k])
  }

  /** The first `i + 1` required keys are all present. */
  predicate PresentThrough(args: map<string, Value>, i: nat)
    requires i < |RequiredKeys|
  {
    forall j :: 0 <= j <= i ==> RequiredKeys[j] in args
  }

  /**
   * The forced casts do not trap: every required key that the source reaches
   * (all keys before it present) holds a value of its kind. The source crashes
   * otherwise, so the model demands it of the caller.
   */
  predicate CastsHold(args: map<string, Value>) {
    forall i :: 0 <= i < |RequiredKeys| ==> PresentThrough(args, i) ==> Fits(args[RequiredKeys[i]], RequiredKinds[i])
  }

  /** Reference definition: key `i` is the first required key that is absent. */
  predicate IsFirstAbsent(args: map<string, Value>, i: nat) {
    && i < |RequiredKeys|
    && RequiredKeys[i] !in args
    && forall j :: 0 <= j < i ==> RequiredKeys[j] in args
  }

  predicate AllPresent(args: map<string, Value>) {
    forall j :: 0 <= j < |RequiredKeys| ==> RequiredKeys[j] in args
  }

  /** When some required key is missing, exactly one of them is the first. */
  lemma FirstAbsentUnique(args: map<string, Value>)
    ensures !AllPresent(args) <==> exists i :: IsFirstAbsent(args, i)
    ensures forall i, j :: IsFirstAbsent(args, i) && IsFirstAbsent(args, j) ==> i == j
  {
    if !AllPresent(args) {
      var k :| 0 <= k < |RequiredKeys| && RequiredKeys[k] !in args;
      var i := 0;
      while RequiredKeys[i] in args
        invariant 0 <= i <= k
        invariant forall j :: 0 <= j < i ==> RequiredKeys[j] in args
        decreases k - i
      {
        i := i + 1;
      }
      assert IsFirstAbsent(args, i);
    }
  }

  datatype SummaryItem = SummaryItem(labelText: string, amountText: Option<string>)

  /** The fields of the `PKPaymentRequest` the plugin fills in. */
  datatype PaymentRequest = PaymentRequest(
    merchantIdentifier: string,
    countryCode: string,
    currencyCode: string,
    supportedNetworks: seq<string>,
    merchantCapabilities: set<nat>,
    paymentSummaryItems: seq<SummaryItem>)

  /**
   * `PKPaymentNetwork(rawValue: $0.lowercased())`: the request path keeps
   * every name, lower-cased, as a raw network value.
   */
  function RequestNetworks(names: seq<string>): (r: seq<string>)
    ensures |r| == |names|
    ensures forall i :: 0 <= i < |r| ==> r[i] == Lower(names[i])
  {
    CapabilityProber.LowerAll(names)
  }

  function Pow2(k: nat): (r: nat)
    ensures r > 0
  {
    if k == 0 then 1 else 2 * Pow2(k - 1)
  }

  /** The 64-bit positions set in `raw`: the members of an option set with that raw value. */
  function OptionSetBits(raw: nat): set<nat> {
    set k: nat | k < 64 && (raw / Pow2(k)) % 2 == 1
  }

  /** `PKMerchantCapability(rawValue: UInt($0) ?? 0)`: the capability bits a name denotes. */
  function RawCapability(name: string): set<nat> {
    OptionSetBits(ParseUInt(name).GetOr(0))
  }

  /**
   * The merchant-capability option set: a left fold of unions over the raw
   * option sets, starting from the empty set. Its members are exactly the
   * bits some name contributes.
   */
  function CapabilityMask(names: seq<string>): (r: set<nat>)
    ensures forall bit :: bit in r <==> exists i :: 0 <= i < |names| && bit in RawCapability(names[i])
    decreases |names|
  {
    if |names| == 0 then {}
    else
      var init := names[..|names| - 1];
      assert forall i :: 0 <= i < |init| ==> init[i] == names[i];
      CapabilityMask(init) + RawCapability(names[|names| - 1])
  }

  /** Neither the order of the names nor repetitions change the capability mask. */
  lemma CapabilityMaskOrderFree(a: seq<string>, b: seq<string>)
    requires forall s :: s in a <==> s in b
    ensures CapabilityMask(a) == CapabilityMask(b)
  {
    forall bit | bit in CapabilityMask(a) ensures bit in CapabilityMask(b) {
      var i :| 0 <= i < |a| && bit in RawCapability(a[i]);
      assert a[i] in b;
    }
    forall bit | bit in CapabilityMask(b) ensures bit in CapabilityMask(a) {
      var i :| 0 <= i < |b| && bit in RawCapability(b[i]);
      assert b[i] in a;
    }
  }

  /** A decimal spelling selects exactly the bits of the number it denotes. */
  lemma NumericCapability(n: nat)
    requires n <= UIntMax
    ensures RawCapability(Render(n)) == OptionSetBits(n)
  {
    ParseRender(n);
  }

  /**
   * The request path reads capabilities as numbers, so the names the
   * capability query recognises ("3DS", "CREDIT_CARD", "DEBIT_CARD") all
   * select the empty option set here, while the query path selects one
   * capability per name.
   */
  lemma CapabilityNamesSelectNothing(names: seq<string>)
    requires forall i :: 0 <= i < |names| ==> CapabilityProber.CapabilityOf(names[i]).Some?
    ensures CapabilityMask(names) == {}
    ensures |names| > 0 ==> CapabilityProber.MapCapabilities(names) != {}
  {
    forall i | 0 <= i < |names| ensures RawCapability(names[i]) == {} {
      CapabilityNameSelectsNothing(names[i]);
    }
    forall bit ensures bit !in CapabilityMask(names) {
    }
    if |names| > 0 {
      var c := CapabilityProber.CapabilityOf(names[0]).value;
      assert c in CapabilityProber.MapCapabilities(names);
    }
  }

  lemma CapabilityNameSelectsNothing(name: string)
    requires CapabilityProber.CapabilityOf(name).Some?
    ensures RawCapability(name) == {}
  {
    if name == "3DS" {
      NonNumericDoesNotParse(name, 1);
    } else {
      NonNumericDoesNotParse(name, 0);
    }
    assert ParseUInt(name).GetOr(0) == 0;
    NoBitsOfZero();
  }

  lemma NoBitsOfZero()
    ensures OptionSetBits(0) == {}
  {
  }

  /** `paymentSummaryItems.map { PKPaymentSummaryItem(label:amount:) }`, the amount text left unparsed. */
  function SummaryItems(items: seq<Value>): (r: seq<SummaryItem>)
    requires forall k :: 0 <= k < |items| ==> IsSummaryItem(items[k])
    ensures |r| == |items|
    ensures forall k :: 0 <= k < |items| ==> IsSummaryItem(items[k]) && r[k].labelText == items[k].fields["label"].s
    ensures forall k :: 0 <= k < |items| ==>
              IsSummaryItem(items[k]) && (r[k].amountText.Some? <==> "amount" in items[k].fields && items[k].fields["amount"].Str?)
    ensures forall k :: 0 <= k < |items| ==>
              IsSummaryItem(items[k]) && (r[k].amountText.Some? ==> r[k].amountText.value == items[k].fields["amount"].s)
  {
    seq(|items|, k requires 0 <= k < |items| && IsSummaryItem(items[k]) => ItemOf(items[k]))
  }

  function ItemOf(v: Value): SummaryItem
    requires IsSummaryItem(v)
  {
    var f := v.fields;
    SummaryItem(f["label"].s, if "amount" in f && f["amount"].Str? then Some(f["amount"].s) else None)
  }

  /**
   * Reference definition of a complete request, read straight from the
   * dictionary: the three codes copied, every network name kept lower-cased
   * in place, the capability bits those of some name, one summary item per
   * entry.
   */
  function Assemble(args: map<string, Value>): (r: PaymentRequest)
    requires CastsHold(args) && AllPresent(args)
    ensures forall k :: k in RequiredKeys ==> k in args
    ensures args["countryCode"].Str? && r.countryCode == args["countryCode"].s
    ensures args["currencyCode"].Str? && r.currencyCode == args["currencyCode"].s
    ensures args["merchantIdentifier"].Str? && r.merchantIdentifier == args["merchantIdentifier"].s
    ensures IsStringList(args["supportedNetworks"])
    ensures |r.supportedNetworks| == |args["supportedNetworks"].items|
    ensures forall i :: 0 <= i < |r.supportedNetworks| ==>
              r.supportedNetworks[i] == Text.Lower(args["supportedNetworks"].items[i].s)
    ensures IsStringList(args["merchantCapabilities"])
    ensures forall bit :: bit in r.merchantCapabilities <==>
              exists i :: 0 <= i < |args["merchantCapabilities"].items| &&
                bit in RawCapability(args["merchantCapabilities"].items[i].s)
    ensures Fits(args["paymentSummaryItems"], ItemListField)
    ensures r.paymentSummaryItems == SummaryItems(args["paymentSummaryItems"].items)
  {
    assert PresentThrough(args, 0) && PresentThrough(args, 1) && PresentThrough(args, 2);
    assert PresentThrough(args, 3) && PresentThrough(args, 4) && PresentThrough(args, 5);
    assert Fits(args[RequiredKeys[0]], RequiredKinds[0]);
    assert Fits(args[RequiredKeys[1]], RequiredKinds[1]);
    assert Fits(args[RequiredKeys[2]], RequiredKinds[2]);
    assert Fits(args[RequiredKeys[3]], RequiredKinds[3]);
    assert Fits(args[RequiredKeys[4]], RequiredKinds[4]);
    assert Fits(args[RequiredKeys[5]], RequiredKinds[5]);
    PaymentRequest(
      args["merchantIdentifier"].s,
      args["countryCode"].s,
      args["currencyCode"].s,
      RequestNetworks(AsStringList(args["supportedNetworks"]).value),
      CapabilityMask(AsStringList(args["merchantCapabilities"]).value),
      SummaryItems(args["paymentSummaryItems"].items))
  }

  /**
   * The body of `requestPayment` up to presentation: read the required keys
   * in order, cast each, and build the payment request.
   */
  function BuildRequest(args: map<string, Value>): (r: Result<PaymentRequest, string>)
    requires CastsHold(args)
    ensures r.Success? <==> AllPresent(args)
    ensures r.Success? ==> r.value == Assemble(args)
    ensures r.Failure? ==> exists i :: 0 <= i < |RequiredKeys| && r.error == RequiredMessage(RequiredKeys[i])
  {
    assert PresentThrough(args, 0) ==> Fits(args[RequiredKeys[0]], RequiredKinds[0]);
    var countryCode :- GetFromRequest(args, "countryCode");
    assert PresentThrough(args, 1) ==> Fits(args[RequiredKeys[1]], RequiredKinds[1]);
    var currencyCode :- GetFromRequest(args, "currencyCode");
    assert PresentThrough(args, 2) ==> Fits(args[RequiredKeys[2]], RequiredKinds[2]);
    var merchantId :- GetFromRequest(args, "merchantIdentifier");
    assert PresentThrough(args, 3) ==> Fits(args[RequiredKeys[3]], RequiredKinds[3]);
    var supportedNetworks :- GetFromRequest(args, "supportedNetworks");
    assert PresentThrough(args, 4) ==> Fits(args[RequiredKeys[4]], RequiredKinds[4]);
    var merchantCapabilities :- GetFromRequest(args, "merchantCapabilities");
    assert PresentThrough(args, 5) ==> Fits(args[RequiredKeys[5]], RequiredKinds[5]);
    var paymentSummaryItems :- GetFromRequest(args, "paymentSummaryItems");
    assert PresentThrough(args, 5);
    assert AllPresent(args);
    Success(Assemble(args))
  }

  /**
   * The error reported is the one for the first absent key in the fixed
   * order, whatever the later keys hold.
   */
  lemma BuildRequestReportsFirstAbsent(args: map<string, Value>, i: nat)
    requires CastsHold(args) && IsFirstAbsent(args, i)
    ensures BuildRequest(args) == Failure(RequiredMessage(RequiredKeys[i]))
  {
  }
}
