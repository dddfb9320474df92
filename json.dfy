/**
 * The JSON values a request body can carry, and JavaScript truthiness over
 * them. A request body is an object: a map from keys to values; a key that is
 * not in the map is `undefined` in the handlers.
 */
module Json {

  /** A parsed JSON value. Numbers are integers here (see README, Left out). */
  datatype Value =
    | Null
    | Bool(b: bool)
    | Num(n: int)
    | Str(s: string)
    | Arr(items: seq<Value>)
    | Obj(fields: map<string, Value>)

  type Body = map<string, Value>

  /** JavaScript truthiness: `null`, `false`, `0` and `""` are falsy. */
  predicate Truthy(v: Value)
  {
    match v
    case Null => false
    case Bool(b) => b
    case Num(n) => n != 0
    case Str(s) => s != ""
    case Arr(_) => true
    case Obj(_) => true
  }

  /** `req.body[key]` used as a condition: an absent key is `undefined`, which is falsy. */
  predicate TruthyField(body: Body, key: string)
  {
    key in body && Truthy(body[key])
  }
}
