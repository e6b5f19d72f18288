/** The JavaScript values that reach the weighing views and the receiver
    server: parsed JSON plus `undefined`, with the truthiness, property-read
    and `parseFloat` rules the code relies on. */
module Json {
  import opened Numbers

  datatype Option<T> = None | Some(value: T)

  /** The outcome of evaluating JavaScript that may raise a TypeError (reading a
      property of null/undefined, calling `.map` on a non-array, ...). */
  datatype Completion<T> = Normal(value: T) | Throws

  datatype JsonVal =
    | JUndef
    | JNull
    | JBool(b: bool)
    | JNum(n: Num)
    | JStr(s: string)
    | JArr(items: seq<JsonVal>)
    | JObj(fields: map<string, JsonVal>)

  /** JavaScript truthiness: undefined, null, false, 0, NaN and "" are falsy. */
  predicate Truthy(v: JsonVal) {
    match v
    case JUndef => false
    case JNull => false
    case JBool(b) => b
    case JNum(n) => n.Fin? && n.val != 0.0
    case JStr(s) => s != ""
    case JArr(_) => true
    case JObj(_) => true
  }

  /** The falsy values are exactly `undefined`, `null`, `false`, `0`, `NaN`
      and the empty string; every array and object is truthy. */
  lemma FalsyValues(v: JsonVal)
    ensures !Truthy(v) <==>
              v == JUndef || v == JNull || v == JBool(false) ||
              v == JNum(Fin(0.0)) || v == JNum(NaN) || v == JStr("")
  {
  }

  /** `a || b` */
  function Or(a: JsonVal, b: JsonVal): JsonVal {
    if Truthy(a) then a else b
  }

  /** `a !== undefined ? a : b` */
  function IfDefined(a: JsonVal, b: JsonVal): JsonVal {
    if a != JUndef then a else b
  }

  /** `v.key` on a value that is neither null nor undefined: an own property of
      an object, and `undefined` otherwise. The keys read by the code are never
      names of built-in properties such as `length`. */
  function Get(v: JsonVal, key: string): (r: JsonVal)
    ensures v.JObj? && key in v.fields ==> r == v.fields[key]
    ensures !(v.JObj? && key in v.fields) ==> r == JUndef
  {
    if v.JObj? && key in v.fields then v.fields[key] else JUndef
  }

  /** `v.key` in full: reading a property of null or undefined throws. */
  function Member(v: JsonVal, key: string): (r: Completion<JsonVal>)
    ensures r.Throws? <==> v == JUndef || v == JNull
    ensures r.Normal? ==> r.value == Get(v, key)
  {
    if v == JUndef || v == JNull then Throws else Normal(Get(v, key))
  }

  /** `parseFloat(v)`. How a string is read is left to the parameter `parse`;
      numbers come back unchanged, and null, undefined, booleans and objects
      (whose string forms are not numerals) give NaN. */
  function ParseFloat(parse: string -> Num, v: JsonVal): Num {
    match v
    case JNum(n) => n
    case JStr(s) => parse(s)
    case _ => NaN
  }

  /** `parseFloat(v || 0)`, the per-entry coercion of the views. It is not
      parse-or-zero: a truthy value that does not parse still gives NaN. */
  function Coerce(parse: string -> Num, v: JsonVal): (r: Num)
    ensures !Truthy(v) ==> r == Fin(0.0)
    ensures v.JNum? ==> r == OrZero(v.n)
    ensures v.JStr? && v.s != "" ==> r == parse(v.s)
    ensures r.NaN? ==> Truthy(v) && !v.JNum?
  {
    ParseFloat(parse, Or(v, JNum(Fin(0.0))))
  }

  /** `parseFloat(v || 0) || 0`, the guarded coercion: never NaN. */
  function CoerceOrZero(parse: string -> Num, v: JsonVal): (r: Num)
    ensures r.Fin?
    ensures Coerce(parse, v).Fin? ==> r == Coerce(parse, v)
    ensures Coerce(parse, v).NaN? ==> r == Fin(0.0)
  {
    OrZero(Coerce(parse, v))
  }
}
