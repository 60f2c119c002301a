/**
 * The JavaScript values that reach the product controller through an Express JSON body,
 * and the two pieces of JavaScript semantics the controller relies on: truthiness (`!x`)
 * and the relational comparison `x < 1`.
 */
module JsValues {

  /** A JavaScript number. Parsed JSON can yield an infinity (`1e999`), and the coercion of
      a string such as "Infinity" or "abc" can yield an infinity or NaN. */
  datatype NumberValue = Finite(value: real) | PosInfinity | NegInfinity | NaN

  /** A JSON value as seen after parsing, with `undefined` for a property that is absent. */
  datatype JsValue =
    | Undefined
    | Null
    | Bool(b: bool)
    | Num(n: NumberValue)
    | Str(s: string)
    | Array(elements: seq<JsValue>)
    | Object(fields: map<string, JsValue>)

  /** JavaScript truthiness: `undefined`, `null`, `false`, `0`, `NaN` and `""` are falsy,
      every other value (including every array and object) is truthy. */
  predicate Truthy(v: JsValue)
  {
    match v
    case Undefined => false
    case Null => false
    case Bool(b) => b
    case Num(n) => !(n.NaN? || n == Finite(0.0))
    case Str(s) => s != ""
    case Array(_) => true
    case Object(_) => true
  }

  /** Property access `o[key]` on an object; `undefined` when the key is absent. */
  function Property(fields: map<string, JsValue>, key: string): (v: JsValue)
    ensures key !in fields ==> v == Undefined
    ensures key in fields ==> v == fields[key]
  {
    if key in fields then fields[key] else Undefined
  }

  /** The JavaScript comparison `n < 1` once its left operand has been coerced to a number:
      every comparison with NaN is false. */
  predicate LessThanOne(n: NumberValue)
  {
    match n
    case Finite(r) => r < 1.0
    case NegInfinity => true
    case PosInfinity => false
    case NaN => false
  }

  /** `n >= 1` read as a claim about the number: a finite number of at least one, or +Infinity. */
  predicate AtLeastOne(n: NumberValue)
  {
    match n
    case Finite(r) => r >= 1.0
    case PosInfinity => true
    case _ => false
  }

  /** The two quantity tests disagree exactly on NaN: `n < 1` and `n >= 1` are both false there. */
  lemma ComparisonsDisagreeOnlyOnNaN(n: NumberValue)
    ensures (LessThanOne(n) == !AtLeastOne(n)) <==> !n.NaN?
  {
  }

  lemma FalsyValues(v: JsValue)
    ensures !Truthy(v) <==> v in {Undefined, Null, Bool(false), Num(Finite(0.0)), Num(NaN), Str("")}
  {
  }
}
