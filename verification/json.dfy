/**
  An abstract JSON value, as `JSON.parse` produces it, together with the two
  pieces of JavaScript semantics the service applies to such values:
  truthiness (`if (x)`, `x || d`) and reading a named property.
  Parsing and serialisation themselves are not modelled: callers receive
  them as oracle functions.
 */
module Json {
  import opened Wrappers

  /** Numbers are JavaScript numbers; a parsed document never holds NaN, so a real is enough. */
  datatype Json =
    | JNull
    | JBool(b: bool)
    | JNum(n: real)
    | JStr(s: string)
    | JArr(items: seq<Json>)
    | JObj(fields: map<string, Json>)

  /** `JSON.parse`: the parsed value, or the SyntaxError's message. */
  type Parser = string -> Result<Json, string>

  /** `JSON.stringify`. */
  type Serializer = Json -> string

  /** JavaScript truthiness of a value: `null`, `false`, `0` and `""` are falsy; every array and object is truthy. */
  predicate Truthy(v: Json) {
    match v
    case JNull => false
    case JBool(b) => b
    case JNum(n) => n != 0.0
    case JStr(s) => s != ""
    case JArr(_) => true
    case JObj(_) => true
  }

  /** Truthiness of a value that may be `undefined` (None). */
  predicate TruthyOpt(v: Option<Json>) {
    v.Some? && Truthy(v.value)
  }

  /**
    Reading `v[key]` (or `v?.[key]`) on a value that is not `null`: an object's own
    field, and `undefined` for every other kind of value. None of the keys the
    service reads is a property that strings, numbers or arrays inherit.
   */
  function Prop(v: Json, key: string): (r: Option<Json>)
    ensures r.Some? <==> v.JObj? && key in v.fields
    ensures r.Some? ==> r.value == v.fields[key]
  {
    if v.JObj? && key in v.fields then Some(v.fields[key]) else None
  }

  /** Optional chaining `v?.[key]` when `v` may itself be `undefined` or `null`. */
  function PropOpt(v: Option<Json>, key: string): (r: Option<Json>)
    ensures r.Some? ==> v.Some? && v.value.JObj?
  {
    if v.Some? then Prop(v.value, key) else None
  }

  /** JavaScript `v || d` where `v` may be `undefined`: `v` itself when truthy, otherwise `d`. */
  function OrElse(v: Option<Json>, d: Json): Json {
    if TruthyOpt(v) then v.value else d
  }
}
