/** The JSON tree the assets serialize to (Newtonsoft's `JToken`), as a plain value.
    Objects keep their properties in insertion order. */
module Json {
  import opened Wrappers

  datatype Json =
    | JNull
    | JBool(b: bool)
    | JNumber(n: real)
    | JString(s: string)
    | JArray(items: seq<Json>)
    | JObject(fields: seq<(string, Json)>)

  /** `obj[key]` / `TryGetValue`: the value of the first property with that name. */
  function Get(fields: seq<(string, Json)>, key: string): (r: Option<Json>)
    ensures r.Some? ==> (key, r.value) in fields
    ensures r.None? <==> forall k :: 0 <= k < |fields| ==> fields[k].0 != key
  {
    if fields == [] then None
    else if fields[0].0 == key then Some(fields[0].1)
    else Get(fields[1..], key)
  }

  /** The first property named `key` is the one `Get` finds. */
  lemma {:induction false} GetAt(fields: seq<(string, Json)>, key: string, k: nat)
    requires k < |fields| && fields[k].0 == key
    requires forall j :: 0 <= j < k ==> fields[j].0 != key
    ensures Get(fields, key) == Some(fields[k].1)
  {
    if k > 0 {
      GetAt(fields[1..], key, k - 1);
    }
  }

  /** The property names of an object, in order. */
  function Keys(fields: seq<(string, Json)>): (r: seq<string>)
    ensures |r| == |fields|
    ensures forall k :: 0 <= k < |fields| ==> r[k] == fields[k].0
  {
    if fields == [] then [] else [fields[0].0] + Keys(fields[1..])
  }

  /** A string property, or a JSON null for a C# `null` string. */
  function NullableString(s: Option<string>): Json
  {
    match s
    case None => JNull
    case Some(v) => JString(v)
  }
}
