/**
  A JSON value of unknown shape, as the proxy's request bodies and the usage script's
  HTTP responses are handled: narrowing by field lookup, never by a fixed schema.
  Parsing itself (json.loads, json.Valid, gjson) is not part of the model: wherever the
  source parses text, the model takes a `Parser` argument, a partial function that yields
  None for text that is not valid JSON.
*/
module JsonValue {
  import opened Wrappers
  import opened Strings

  /** Numbers are integers only: fractional JSON numbers are not modelled. */
  datatype Json =
    | JNull
    | JBool(b: bool)
    | JNumber(n: int)
    | JString(s: string)
    | JArray(items: seq<Json>)
    | JObject(fields: seq<(string, Json)>)

  type Parser = string -> Option<Json>

  /** The value stored under key in an object's fields (the first, should keys repeat). */
  function Lookup(fields: seq<(string, Json)>, key: string): (r: Option<Json>)
    ensures r.None? <==> forall i :: 0 <= i < |fields| ==> fields[i].0 != key
    ensures r.Some? ==> exists i :: 0 <= i < |fields| && fields[i] == (key, r.value)
  {
    if fields == [] then None
    else if fields[0].0 == key then Some(fields[0].1)
    else
      var r := Lookup(fields[1..], key);
      assert r.Some? ==> exists i :: 0 <= i < |fields[1..]| && fields[1..][i] == (key, r.value);
      assert r.Some? ==> exists i :: 1 <= i < |fields| && fields[i] == (key, r.value);
      r
  }

  /** `key in d` for a Python dict, or gjson's Exists on a top-level path. */
  predicate HasKey(v: Json, key: string) {
    v.JObject? && Lookup(v.fields, key).Some?
  }

  /** Field access on an object; absent for non-objects and missing keys (Python's dict.get). */
  function Get(v: Json, key: string): (r: Option<Json>)
    ensures r.Some? <==> HasKey(v, key)
  {
    if v.JObject? then Lookup(v.fields, key) else None
  }

  /** Replace the value of an existing field, leaving every other field as it was. */
  function SetField(fields: seq<(string, Json)>, key: string, val: Json): (r: seq<(string, Json)>)
    requires Lookup(fields, key).Some?
    ensures Lookup(r, key) == Some(val)
    ensures forall k :: k != key ==> Lookup(r, k) == Lookup(fields, k)
  {
    if fields[0].0 == key then [(key, val)] + fields[1..]
    else [fields[0]] + SetField(fields[1..], key, val)
  }

  /**
    gjson's Result.String() for the value at a path: strings as they are, a missing value or
    null as "", booleans and integers as their JSON text. The raw text of a nested array or
    object is not modelled ("" stands for it).
  */
  function GjsonString(r: Option<Json>): string
  {
    match r
    case Some(JString(s)) => s
    case Some(JBool(b)) => if b then "true" else "false"
    case Some(JNumber(n)) => IntToString(n)
    case _ => ""
  }

  /**
    Python's str() of a JSON value as decoded by json.loads. The repr of a list or dict is
    not modelled ("" stands for it).
  */
  function PyStr(v: Json): string
  {
    match v
    case JString(s) => s
    case JNumber(n) => IntToString(n)
    case JBool(b) => if b then "True" else "False"
    case JNull => "None"
    case _ => ""
  }
}
