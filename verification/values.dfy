/**
 * The dynamically typed values a JavaScript caller hands across the Cordova
 * bridge (Swift sees them as `Any`), and the conditional casts the plugin
 * applies to them.
 */
module Values {
  import opened Wrappers

  datatype Value =
    | Null
    | Bool(b: bool)
    | Number(n: int)
    | Str(s: string)
    | List(items: seq<Value>)
    | Dict(fields: map<string, Value>)

  /** `v as? [String]` succeeds exactly on a list whose every element is a string. */
  predicate IsStringList(v: Value) {
    v.List? && forall i :: 0 <= i < |v.items| ==> v.items[i].Str?
  }

  /** The conditional cast `v as? [String]`. */
  function AsStringList(v: Value): (r: Option<seq<string>>)
    ensures r.Some? <==> IsStringList(v)
    ensures r.Some? ==> |r.value| == |v.items|
    ensures r.Some? ==> forall i :: 0 <= i < |v.items| ==> v.items[i] == Str(r.value[i])
  {
    if IsStringList(v) then Some(seq(|v.items|, i requires 0 <= i < |v.items| => v.items[i].s))
    else None
  }
}
