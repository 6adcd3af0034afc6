/**
 * Parsed JSON values, as both sides of the application exchange them, and the two
 * pieces of JavaScript semantics the frontend applies to them: truthiness (`if (x)`,
 * `x || y`, `!x`) and reading a named property (`x.detail`).
 */
module Json {

  datatype Value =
    | Null
    | Bool(b: bool)
    | Number(n: real)
    | Str(s: string)
    | Array(items: seq<Value>)
    | Object(fields: map<string, Value>)

  /** JavaScript truthiness of a value obtained from `JSON.parse`. JSON has no NaN and no -0. */
  predicate Truthy(v: Value) {
    match v
    case Null => false
    case Bool(b) => b
    case Number(n) => n != 0.0
    case Str(s) => s != ""
    case Array(_) => true
    case Object(_) => true
  }

  /** The property names the frontend reads from parsed bodies. None of them is an own or
      prototype property of a JavaScript string, number, boolean or array. */
  datatype Key = Detail | Prediction | Probability

  function KeyName(k: Key): string {
    match k
    case Detail => "detail"
    case Prediction => "prediction"
    case Probability => "probability"
  }

  /** What evaluating `v.key` gives in JavaScript: `undefined`, a value, or a TypeError
      (reading a property of `null`). */
  datatype Property = Undefined | Defined(value: Value) | ReadOfNull

  function Read(v: Value, k: Key): (p: Property)
    ensures p.ReadOfNull? <==> v.Null?
    ensures p.Defined? <==> v.Object? && KeyName(k) in v.fields
    ensures p.Defined? ==> p.value == v.fields[KeyName(k)]
  {
    match v
    case Null => ReadOfNull
    case Object(fields) => if KeyName(k) in fields then Defined(fields[KeyName(k)]) else Undefined
    case _ => Undefined
  }

  /** Truthiness of the result of a property read that did not throw. */
  predicate TruthyProperty(p: Property) {
    p.Defined? && Truthy(p.value)
  }
}
