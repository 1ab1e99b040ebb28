/**
 * The values an event's property map holds, as far as the plugin looks at
 * them: JavaScript primitives and nested objects, with JavaScript's notion
 * of truthiness.
 */
module Values {

  /** A JavaScript value stored under a property key; an absent key is `undefined`. */
  datatype Value =
    | Null
    | Bool(b: bool)
    | Num(n: int)
    | Str(s: string)
    | Obj(fields: map<string, Value>)

  /** An event's `properties` object: property keys to values. */
  type Properties = map<string, Value>

  /** JavaScript truthiness: `null`, `false`, `0` and `""` are falsy, everything else is truthy. */
  predicate Truthy(v: Value)
  {
    match v
    case Null => false
    case Bool(b) => b
    case Num(n) => n != 0
    case Str(s) => s != ""
    case Obj(_) => true
  }

  /** `o[key]` is truthy: the key is present and holds a truthy value. */
  predicate TruthyAt(o: Properties, key: string)
  {
    key in o && Truthy(o[key])
  }
}
