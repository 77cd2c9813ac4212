/**
 * The argument handling of `canMakePayment`: the shape guard on the bridged
 * argument, the case-insensitive network-name mapping and the case-sensitive
 * merchant-capability mapping.
 */
module CapabilityProber {
  import opened Wrappers
  import opened Values
  import opened Text

  /** The payment networks the name switch recognises. */
  datatype Network = Visa | MasterCard | Amex

  /** The merchant capabilities the name switch recognises. */
  datatype Capability = ThreeDS | Credit | Debit

  /** The network switch, applied to an already lower-cased name. */
  function NetworkOf(name: string): Option<Network> {
    match name
    case "visa" => Some(Visa)
    case "mastercard" => Some(MasterCard)
    case "amex" => Some(Amex)
    case _ => None
  }

  /** The capability switch; names are compared exactly. */
  function CapabilityOf(name: string): Option<Capability> {
    match name
    case "3DS" => Some(ThreeDS)
    case "CREDIT_CARD" => Some(Credit)
    case "DEBIT_CARD" => Some(Debit)
    case _ => None
  }

  /** The name the caller must spell (in any letter case) to select `n`. */
  function NetworkName(n: Network): string {
    match n
    case Visa => "visa"
    case MasterCard => "mastercard"
    case Amex => "amex"
  }

  /** The recognised network of a caller-supplied name, after lower-casing. */
  function RecogniseNetwork(name: string): (r: Option<Network>)
    ensures forall n :: r == Some(n) <==> Lower(name) == NetworkName(n)
  {
    NetworkOf(Lower(name))
  }

  /** `compactMap { $0 }`: the present values, in order. */
  function Compact<T(!new)>(xs: seq<Option<T>>): (r: seq<T>)
    ensures |r| <= |xs|
    ensures forall v :: v in r <==> Some(v) in xs
    decreases |xs|
  {
    if |xs| == 0 then []
    else
      var rest := Compact(xs[1..]);
      assert forall o :: o in xs <==> o == xs[0] || o in xs[1..];
      match xs[0]
      case Some(v) => [v] + rest
      case None => rest
  }

  lemma {:induction false} CompactAppend<T(!new)>(a: seq<Option<T>>, b: seq<Option<T>>)
    ensures Compact(a + b) == Compact(a) + Compact(b)
    decreases |a|
  {
    if |a| == 0 {
      assert a + b == b;
    } else {
      var tail := a[1..];
      CompactAppend(tail, b);
      assert (a + b)[0] == a[0];
      assert (a + b)[1..] == tail + b;
      match a[0]
      case Some(v) =>
        calc {
          Compact(a + b);
          [v] + Compact(tail + b);
          [v] + (Compact(tail) + Compact(b));
          ([v] + Compact(tail)) + Compact(b);
          Compact(a) + Compact(b);
        }
      case None =>
        calc {
          Compact(a + b);
          Compact(tail + b);
          Compact(tail) + Compact(b);
          Compact(a) + Compact(b);
        }
    }
  }

  /** `map { $0.lowercased() }`. */
  function LowerAll(names: seq<string>): (r: seq<string>)
    ensures |r| == |names|
    ensures forall i :: 0 <= i < |names| ==> r[i] == Lower(names[i])
  {
    seq(|names|, i requires 0 <= i < |names| => Lower(names[i]))
  }

  /** `map { switch ... }` over lower-cased names. */
  function ClassifyAll(lowered: seq<string>): (r: seq<Option<Network>>)
    ensures |r| == |lowered|
    ensures forall i :: 0 <= i < |lowered| ==> r[i] == NetworkOf(lowered[i])
  {
    seq(|lowered|, i requires 0 <= i < |lowered| => NetworkOf(lowered[i]))
  }

  /**
   * The network list handed to the capability query: each name lower-cased,
   * run through the switch, and unrecognised names dropped.
   */
  function MapNetworks(names: seq<string>): (r: seq<Network>)
    ensures |r| <= |names|
    ensures forall n :: n in r <==> exists i :: 0 <= i < |names| && RecogniseNetwork(names[i]) == Some(n)
  {
    var classified := ClassifyAll(LowerAll(names));
    assert forall n :: Some(n) in classified ==> exists i :: 0 <= i < |names| && RecogniseNetwork(names[i]) == Some(n) by {
      forall n | Some(n) in classified
        ensures exists i :: 0 <= i < |names| && RecogniseNetwork(names[i]) == Some(n)
      {
        var i :| 0 <= i < |classified| && classified[i] == Some(n);
        assert RecogniseNetwork(names[i]) == Some(n);
      }
    }
    assert forall i :: 0 <= i < |names| ==> classified[i] == RecogniseNetwork(names[i]);
    Compact(classified)
  }

  /** Mapping distributes over concatenation, so the output keeps the input's order. */
  lemma MapNetworksAppend(a: seq<string>, b: seq<string>)
    ensures MapNetworks(a + b) == MapNetworks(a) + MapNetworks(b)
  {
    assert LowerAll(a + b) == LowerAll(a) + LowerAll(b);
    assert ClassifyAll(LowerAll(a) + LowerAll(b)) == ClassifyAll(LowerAll(a)) + ClassifyAll(LowerAll(b));
    CompactAppend(ClassifyAll(LowerAll(a)), ClassifyAll(LowerAll(b)));
  }

  /** A single name maps to its network when recognised and to nothing otherwise. */
  lemma MapNetworksSingle(name: string)
    ensures MapNetworks([name]) == match RecogniseNetwork(name) case Some(n) => [n] case None => []
  {
    assert ClassifyAll(LowerAll([name])) == [RecogniseNetwork(name)];
  }

  /** An unrecognised name anywhere in the list is dropped without effect and without error. */
  lemma UnknownNetworkDropped(a: seq<string>, unknown: string, b: seq<string>)
    requires RecogniseNetwork(unknown).None?
    ensures MapNetworks(a + [unknown] + b) == MapNetworks(a + b)
  {
    MapNetworksAppend(a + [unknown], b);
    MapNetworksAppend(a, [unknown]);
    MapNetworksSingle(unknown);
    MapNetworksAppend(a, b);
  }

  /** Names that agree after lower-casing select the same networks. */
  lemma MapNetworksIgnoresCase(a: seq<string>, b: seq<string>)
    requires |a| == |b|
    requires forall i :: 0 <= i < |a| ==> Lower(a[i]) == Lower(b[i])
    ensures MapNetworks(a) == MapNetworks(b)
  {
    assert LowerAll(a) == LowerAll(b);
  }

  /** The capability set handed to the query: a left fold of unions over the recognised names. */
  function MapCapabilities(names: seq<string>): (r: set<Capability>)
    ensures forall c :: c in r <==> exists i :: 0 <= i < |names| && CapabilityOf(names[i]) == Some(c)
    decreases |names|
  {
    if |names| == 0 then {}
    else
      var init := names[..|names| - 1];
      var last := names[|names| - 1];
      var acc := MapCapabilities(init);
      assert forall i :: 0 <= i < |init| ==> init[i] == names[i];
      match CapabilityOf(last)
      case Some(c) => acc + {c}
      case None => acc
  }

  /** Neither the order of the names nor repetitions change the capability set. */
  lemma MapCapabilitiesOrderFree(a: seq<string>, b: seq<string>)
    requires forall s :: s in a <==> s in b
    ensures MapCapabilities(a) == MapCapabilities(b)
  {
    forall c ensures c in MapCapabilities(a) ==> c in MapCapabilities(b) {
      if c in MapCapabilities(a) {
        var i :| 0 <= i < |a| && CapabilityOf(a[i]) == Some(c);
        assert a[i] in b;
      }
    }
    forall c ensures c in MapCapabilities(b) ==> c in MapCapabilities(a) {
      if c in MapCapabilities(b) {
        var i :| 0 <= i < |b| && CapabilityOf(b[i]) == Some(c);
        assert b[i] in a;
      }
    }
  }

  /**
   * The guard of `canMakePayment`: the argument must be a dictionary whose
   * `supportedNetworks` and `merchantCapabilities` are both string lists.
   */
  function ProbeArguments(arg: Value): (r: Option<(seq<string>, seq<string>)>)
    ensures r.Some? <==>
      && arg.Dict?
      && "supportedNetworks" in arg.fields && IsStringList(arg.fields["supportedNetworks"])
      && "merchantCapabilities" in arg.fields && IsStringList(arg.fields["merchantCapabilities"])
    ensures r.Some? ==> AsStringList(arg.fields["supportedNetworks"]) == Some(r.value.0)
    ensures r.Some? ==> AsStringList(arg.fields["merchantCapabilities"]) == Some(r.value.1)
  {
    match arg
    case Dict(args) =>
      if "supportedNetworks" !in args then None
      else if "merchantCapabilities" !in args then None
      else
        (match (AsStringList(args["supportedNetworks"]), AsStringList(args["merchantCapabilities"]))
         case (Some(networks), Some(capabilities)) => Some((networks, capabilities))
         case _ => None)
    case _ => None
  }
}
