/**
 * The org.json values the parser reads (plugin descriptors, subscription
 * objects) and the two helpers over them: `JSONObject.getStr` and
 * `JSONArray.filterIsInstance<T>()`.
 */
module Json {
  import opened Optional
  import opened Text

  /** A JSON value as org.json holds it; `JNull` is `JSONObject.NULL`. Numbers are integers here. */
  datatype Json =
    | JNull
    | JBool(b: bool)
    | JNumber(n: int)
    | JString(s: string)
    | JArray(items: seq<Json>)
    | JObject(fields: map<string, Json>)

  /** The reified type argument `T` of `filterIsInstance<T>()`; `AnyKind` is `Any`, which `JSONObject.NULL` also is. */
  datatype Kind = AnyKind | StringKind | BooleanKind | NumberKind | ArrayKind | ObjectKind

  /** Kotlin's `v is T`. */
  predicate IsInstance(v: Json, k: Kind)
  {
    match k
    case AnyKind => true
    case StringKind => v.JString?
    case BooleanKind => v.JBool?
    case NumberKind => v.JNumber?
    case ArrayKind => v.JArray?
    case ObjectKind => v.JObject?
  }

  /**
   * `JSONObject.getStr(name)`: the string stored under `name`, and nothing
   * when the key is absent, when its value is not a string, or when the
   * string is blank.
   */
  function GetStr(obj: map<string, Json>, name: string): (r: Option<string>)
    ensures r.Some? <==> name in obj && obj[name].JString? && !IsBlank(obj[name].s)
    ensures r.Some? ==> obj[name] == JString(r.value)
  {
    if name !in obj then None
    else match obj[name]
      case JString(s) => if IsBlank(s) then None else Some(s)
      case _ => None
  }

  /** `JSONObject.optJSONArray(name)`: the array stored under `name`, or nothing when there is none. */
  function OptJsonArray(obj: map<string, Json>, name: string): (r: Option<seq<Json>>)
    ensures r.Some? <==> name in obj && obj[name].JArray?
    ensures r.Some? ==> obj[name] == JArray(r.value)
  {
    if name in obj && obj[name].JArray? then Some(obj[name].items) else None
  }

  /** The instances of `k` in `arr`, in index order: what `filterIsInstance` returns. */
  function Filtered(arr: seq<Json>, k: Kind): seq<Json>
  {
    if arr == [] then []
    else Filtered(arr[..|arr| - 1], k) + (if IsInstance(arr[|arr| - 1], k) then [arr[|arr| - 1]] else [])
  }

  /** `JSONArray.filterIsInstance<T>()`: walks the array by index and keeps each element that is a `T`. */
  method FilterIsInstance(arr: seq<Json>, k: Kind) returns (list: seq<Json>)
    ensures list == Filtered(arr, k)
    ensures forall v :: v in list <==> v in arr && IsInstance(v, k)
  {
    list := [];
    for i := 0 to |arr|
      invariant list == Filtered(arr[..i], k)
    {
      assert arr[..i + 1][..i] == arr[..i];
      if IsInstance(arr[i], k) {
        list := list + [arr[i]];
      }
    }
    assert arr[..|arr|] == arr;
    FilteredMembers(arr, k);
  }

  /** An element is kept exactly when it occurs in the array and is an instance of the kind. */
  lemma {:induction false} FilteredMembers(arr: seq<Json>, k: Kind)
    ensures forall v :: v in Filtered(arr, k) <==> v in arr && IsInstance(v, k)
  {
    if arr != [] {
      var init := arr[..|arr| - 1];
      FilteredMembers(init, k);
      assert arr == init + [arr[|arr| - 1]];
    }
  }

  /** Filtering distributes over concatenation, so it keeps the relative order of the kept elements. */
  lemma {:induction false} FilteredAppend(a: seq<Json>, b: seq<Json>, k: Kind)
    ensures Filtered(a + b, k) == Filtered(a, k) + Filtered(b, k)
  {
    if b != [] {
      var init := b[..|b| - 1];
      FilteredAppend(a, init, k);
      assert (a + b)[..|a + b| - 1] == a + init;
      assert (a + b)[|a + b| - 1] == b[|b| - 1];
    } else {
      assert a + b == a;
    }
  }

  /** An array whose elements are all of the kind is returned whole. */
  lemma {:induction false} FilteredAll(arr: seq<Json>, k: Kind)
    requires forall i :: 0 <= i < |arr| ==> IsInstance(arr[i], k)
    ensures Filtered(arr, k) == arr
  {
    if arr != [] {
      FilteredAll(arr[..|arr| - 1], k);
    }
  }
}
