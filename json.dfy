/** JSON values as both ends of the protocol see them after parsing.
    A number written without fraction or exponent is a `JInt`; any other number
    literal is a `JFloat`, kept as the decimal `mantissa / 10^scale` so that it can
    be compared and tested for sign without floating-point arithmetic. */
module Json {
  import opened Wrappers

  datatype Json =
    | JNull
    | JBool(b: bool)
    | JInt(i: int)
    | JFloat(mantissa: int, scale: nat)
    | JStr(s: string)
    | JArr(items: seq<Json>)
    | JObj(fields: map<string, Json>)

  /** A JSON object, a Python `dict[str, Any]` or a TypeScript record. */
  type Object = map<string, Json>

  /** `dict.get(key)` in Python; a missing property (`undefined`) in TypeScript. */
  function Get(o: Object, key: string): (r: Option<Json>)
    ensures r.Some? <==> key in o
    ensures r.Some? ==> r.value == o[key]
  {
    if key in o then Some(o[key]) else None
  }

  /** `dict.get(key)` in Python as a value: a missing key and an explicit null
      both read as None. */
  function PyGet(o: Object, key: string): (r: Json)
    ensures key in o ==> r == o[key]
    ensures key !in o ==> r == JNull
  {
    if key in o then o[key] else JNull
  }

  /** Python truth value: None, False, zero, and empty strings, lists and dicts are false. */
  predicate PyTruthy(j: Json) {
    match j
    case JNull => false
    case JBool(b) => b
    case JInt(i) => i != 0
    case JFloat(m, _) => m != 0
    case JStr(s) => s != ""
    case JArr(xs) => xs != []
    case JObj(f) => f != map[]
  }

  /** Python truth value of `d.get(key)`: a missing key reads as None, which is false. */
  predicate PyTruthyOpt(o: Option<Json>) {
    o.Some? && PyTruthy(o.value)
  }

  /** JavaScript truth value: null, undefined, false, 0 and "" are falsy; every
      object and array is truthy, even an empty one. */
  predicate JsTruthy(o: Option<Json>) {
    match o
    case None => false
    case Some(JNull) => false
    case Some(JBool(b)) => b
    case Some(JInt(i)) => i != 0
    case Some(JFloat(m, _)) => m != 0
    case Some(JStr(s)) => s != ""
    case Some(JArr(_)) => true
    case Some(JObj(_)) => true
  }

  /** Property access `v.key` in TypeScript: undefined unless `v` is an object
      holding `key`. */
  function JsGet(v: Json, key: string): (r: Option<Json>)
    ensures r.Some? <==> v.JObj? && key in v.fields
    ensures r.Some? ==> r.value == v.fields[key]
  {
    if v.JObj? then Get(v.fields, key) else None
  }

  /** `a ?? b` in TypeScript: the default replaces null and undefined only, so
      `0`, `""` and `false` are kept. */
  function Coalesce(a: Option<Json>, default: Json): (r: Json)
    ensures a.None? || a == Some(JNull) ==> r == default
    ensures a.Some? && a.value != JNull ==> r == a.value
  {
    if a.None? || a.value == JNull then default else a.value
  }

  /** `isinstance(x, int)` in Python, which also holds of booleans. */
  predicate IsPyInt(j: Json) {
    j.JInt? || j.JBool?
  }

  /** The integer a Python `int` (or `bool`) stands for. */
  function PyIntValue(j: Json): int
    requires IsPyInt(j)
  {
    match j
    case JInt(i) => i
    case JBool(b) => if b then 1 else 0
  }

  function Pow10(n: nat): (r: nat)
    ensures r >= 1
  {
    if n == 0 then 1 else 10 * Pow10(n - 1)
  }

  /** The exact value of a number (`int` or `float` in Python; `number` in TypeScript). */
  function NumberValue(j: Json): real
    requires IsPyInt(j) || j.JFloat?
  {
    match j
    case JFloat(m, sc) => m as real / Pow10(sc) as real
    case _ => PyIntValue(j) as real
  }

  /** Sign of a number: a float is positive exactly when its mantissa is. */
  lemma {:induction false} NumberPositive(j: Json)
    requires IsPyInt(j) || j.JFloat?
    ensures NumberValue(j) > 0.0 <==> (if j.JFloat? then j.mantissa > 0 else PyIntValue(j) > 0)
  {
    if j.JFloat? {
      var d := Pow10(j.scale) as real;
      assert d > 0.0;
      if j.mantissa > 0 {
        assert j.mantissa as real / d > 0.0;
      } else {
        assert j.mantissa as real <= 0.0;
        assert j.mantissa as real / d <= 0.0;
      }
    }
  }
}
