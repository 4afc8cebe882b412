/** JSON values as the Flask backend receives and returns them, with the few Python operations
    the request handlers apply to them: truth value (`not x`), `len(x)`, `x[i]`, `key in x` and
    `x.get(key, default)`. An operation Python would refuse with an exception yields `None`. */
module PyJson {
  import opened Wrappers
  import Text

  datatype Json =
    | JNull
    | JBool(b: bool)
    | JNum(x: real)
    | JStr(s: string)
    | JArr(items: seq<Json>)
    | JObj(fields: map<string, Json>)

  /** Python's truth value of the decoded value: `None`, `False`, zero and empty containers are false. */
  predicate Truthy(j: Json) {
    match j
    case JNull => false
    case JBool(b) => b
    case JNum(x) => x != 0.0
    case JStr(s) => |s| > 0
    case JArr(items) => |items| > 0
    case JObj(fields) => |fields| > 0
  }

  /** `len(j)`; `None` is the `TypeError` for values without a length. */
  function Len(j: Json): (r: Option<nat>)
    ensures r.Some? <==> j.JStr? || j.JArr? || j.JObj?
  {
    match j
    case JStr(s) => Some(|s|)
    case JArr(items) => Some(|items|)
    case JObj(fields) => Some(|fields|)
    case _ => None
  }

  /** `j[i]` for a non-negative integer index; `None` is the `IndexError`, `KeyError` (object keys
      are strings, never integers) or `TypeError`. */
  function Index(j: Json, i: nat): (r: Option<Json>)
    ensures r.Some? <==> (j.JStr? && i < |j.s|) || (j.JArr? && i < |j.items|)
  {
    match j
    case JStr(s) => if i < |s| then Some(JStr([s[i]])) else None
    case JArr(items) => if i < |items| then Some(items[i]) else None
    case _ => None
  }

  /** `key in j` for a string key: membership of keys for an object, of elements for an array,
      substring for a string; `None` is the `TypeError` for other values. */
  function HasKey(j: Json, key: string): (r: Option<bool>)
    ensures j.JObj? ==> r == Some(key in j.fields)
    ensures (j.JNull? || j.JBool? || j.JNum?) ==> r.None?
  {
    match j
    case JObj(fields) => Some(key in fields)
    case JArr(items) => Some(JStr(key) in items)
    case JStr(s) => Some(Text.Contains(s, key))
    case _ => None
  }

  /** `fields.get(key, default)`. */
  function Get(fields: map<string, Json>, key: string, default: Json): (r: Json)
    ensures key in fields ==> r == fields[key]
    ensures key !in fields ==> r == default
  {
    if key in fields then fields[key] else default
  }

  /** `fields.get(key)`: `None` in Python, so `JNull`, for an absent key. */
  function GetOrNull(fields: map<string, Json>, key: string): (r: Json)
    ensures key !in fields ==> r == JNull
  {
    Get(fields, key, JNull)
  }
}
