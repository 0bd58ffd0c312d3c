/** JSON values as JavaScript holds them after `JSON.parse`, with objects
    keeping their keys in insertion order, and JavaScript truthiness. */
module Json {
  import opened Wrappers
  import opened Dicts

  datatype Json =
    | JNull
    | JBool(b: bool)
    | JNum(n: real)
    | JStr(s: string)
    | JArr(items: seq<Json>)
    | JObj(fields: seq<(string, Json)>)

  /** JavaScript truthiness of a JSON value. */
  predicate Truthy(j: Json)
  {
    match j
    case JNull => false
    case JBool(b) => b
    case JNum(n) => n != 0.0
    case JStr(s) => s != ""
    case JArr(_) => true
    case JObj(_) => true
  }

  /** Truthiness of a value that may be `undefined` (None). */
  predicate TruthyOpt(o: Option<Json>)
  {
    o.Some? && Truthy(o.value)
  }

  /** `j[k]` for a named key: only objects have such properties. */
  function Member(j: Json, k: string): (r: Option<Json>)
    ensures r.Some? ==> j.JObj?
  {
    match j
    case JObj(fields) => Get(fields, k)
    case _ => None
  }

  /** `o?.[k]`: `undefined` when `o` is `undefined`. */
  function MemberOpt(o: Option<Json>, k: string): (r: Option<Json>)
    ensures r.Some? ==> o.Some? && o.value.JObj?
  {
    match o
    case None => None
    case Some(j) => Member(j, k)
  }

  /** The string `JSON.stringify(value)`. It is treated as an uninterpreted
      injective function: a constructor is injective, and `value` decodes it. */
  datatype Serialized = Stringify(value: Json)
}
