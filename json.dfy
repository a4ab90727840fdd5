/**
 * The values that Python's json.loads produces. An object is its member list in
 * insertion order, as a Python dict keeps it; the parser itself is not modelled
 * and is passed around as a function.
 */
module JsonValue {
  import opened Wrappers

  datatype Json =
    | JNull
    | JBool(b: bool)
    | JInt(i: int)
    | JFloat(r: real)
    | JString(s: string)
    | JArray(items: seq<Json>)
    | JObject(members: seq<(string, Json)>)

  /** json.loads: a partial parser from text to a value, failing with the exception's text. */
  type Parser = string -> Result<Json, string>

  /** The value stored under `key` (dict lookup; the first member with that key). */
  function Lookup(members: seq<(string, Json)>, key: string): (r: Option<Json>)
    ensures r.Some? <==> exists i :: 0 <= i < |members| && members[i].0 == key
    ensures r.Some? ==> exists i :: 0 <= i < |members| && members[i] == (key, r.value)
  {
    if |members| == 0 then None
    else if members[0].0 == key then Some(members[0].1)
    else Lookup(members[1..], key)
  }

  /** The second of two distinct keys is found. */
  lemma LookupSecond(k1: string, v1: Json, k2: string, v2: Json)
    requires k1 != k2
    ensures Lookup([(k1, v1), (k2, v2)], k2) == Some(v2)
  {
    assert [(k1, v1), (k2, v2)][1..] == [(k2, v2)];
  }

  /** The member list as a dict: each key with the value a lookup finds. */
  function Dict(members: seq<(string, Json)>): (d: map<string, Json>)
    ensures forall k :: Lookup(members, k) == (if k in d then Some(d[k]) else None)
  {
    if |members| == 0 then map[]
    else Dict(members[1..])[members[0].0 := members[0].1]
  }

  /** `key in value` and `value[key]` for a value that must be a dict. */
  function Field(v: Json, key: string): Option<Json>
  {
    if v.JObject? then Lookup(v.members, key) else None
  }

  /** Python's truth value of a decoded JSON value. */
  predicate Truthy(v: Json)
  {
    match v
    case JNull => false
    case JBool(b) => b
    case JInt(i) => i != 0
    case JFloat(r) => r != 0.0
    case JString(s) => |s| > 0
    case JArray(items) => |items| > 0
    case JObject(members) => |members| > 0
  }

  /** The name Python gives the type of a decoded value, as it appears in exception texts. */
  function TypeName(v: Json): string
  {
    match v
    case JNull => "NoneType"
    case JBool(_) => "bool"
    case JInt(_) => "int"
    case JFloat(_) => "float"
    case JString(_) => "str"
    case JArray(_) => "list"
    case JObject(_) => "dict"
  }
}
