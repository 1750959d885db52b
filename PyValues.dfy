/** The Python values the gates inspect: optional values (`None` or a value),
    decoded JSON documents, the truthiness test `not x`, the operator `in`
    applied to a decoded document, and the exceptions the gates can raise
    without catching them. */
module PyValues {

  datatype Option<+T> = None | Some(value: T)

  /** A decoded JSON document as `json.loads` or Flask's `get_json` produce it.
      Numbers are modelled by their integer value only. */
  datatype JsonValue =
    | JNull
    | JBool(b: bool)
    | JNum(n: int)
    | JStr(s: string)
    | JArr(elems: seq<JsonValue>)
    | JObj(members: map<string, JsonValue>)

  /** Python truthiness: `None`, `False`, zero, `""`, `[]` and `{}` are false. */
  predicate Truthy(v: JsonValue) {
    match v
    case JNull => false
    case JBool(b) => b
    case JNum(n) => n != 0
    case JStr(s) => s != []
    case JArr(xs) => xs != []
    case JObj(m) => m != map[]
  }

  /** `dict.get(key)`: the member, or `None` (JSON null) when it is absent. */
  function Get(m: map<string, JsonValue>, key: string): (v: JsonValue)
    ensures key !in m ==> v == JNull
    ensures key in m ==> v == m[key]
  {
    if key in m then m[key] else JNull
  }

  /** The exceptions a gate can let escape. */
  datatype PyException =
    | IndexError
    | TypeError
    | AttributeError
    | NameError(name: string)

  /** `needle in haystack` for strings: `needle` occurs as a contiguous piece. */
  predicate Substring(needle: string, haystack: string)
    decreases |haystack|
  {
    || needle <= haystack
    || (haystack != [] && Substring(needle, haystack[1..]))
  }

  /** What `key in v` evaluates to for a decoded document `v`: a boolean, or the
      TypeError Python raises when `v` is a number or a boolean. */
  datatype Membership = Member(isIn: bool) | NotIterable

  function In(key: string, v: JsonValue): (r: Membership)
    ensures v.JObj? ==> r == Member(key in v.members)
    ensures v.JArr? ==> r == Member(JStr(key) in v.elems)
    ensures r == NotIterable <==> v.JNum? || v.JBool? || v.JNull?
  {
    match v
    case JObj(m) => Member(key in m)
    case JArr(xs) => Member(JStr(key) in xs)
    case JStr(s) => Member(Substring(key, s))
    case _ => NotIterable
  }
}
