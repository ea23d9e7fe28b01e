/** JSON values as the schema adapter sees them: objects (Python dicts),
    arrays (Python lists) and scalars. */
module Json {

  import opened Wrappers

  datatype Json =
    | JObject(fields: map<string, Json>)
    | JArray(items: seq<Json>)
    | JString(str: string)
    | JNumber(num: int)
    | JBool(b: bool)
    | JNull

  /** The value reached from `j` by following the dict keys of `path`, one
      object at a time; arrays are never entered. */
  function Lookup(j: Json, path: seq<string>): Option<Json>
    decreases |path|
  {
    if path == [] then Some(j)
    else match j
      case JObject(m) => if path[0] in m then Lookup(m[path[0]], path[1..]) else None
      case _ => None
  }

  /** No object reachable from `j` through object values has the key `k`. */
  predicate NoKey(j: Json, k: string)
  {
    match j
    case JObject(m) => k !in m && forall key | key in m :: NoKey(m[key], k)
    case _ => true
  }

  /** `k` occurs on no dict path of `j`. */
  lemma {:induction false} NoKeyNoPath(j: Json, k: string, path: seq<string>)
    requires NoKey(j, k)
    ensures Lookup(j, path).Some? && Lookup(j, path).value.JObject? ==> k !in Lookup(j, path).value.fields
    decreases |path|
  {
    if path != [] && j.JObject? && path[0] in j.fields {
      NoKeyNoPath(j.fields[path[0]], k, path[1..]);
    }
  }
}
