/** JavaScript values as far as a cron-job descriptor and a history request need
    them: scalar property values, objects seen as maps from property name to
    value, the truthiness test and the `String(v)` conversion that `+` applies
    when one operand is a string. */
module Js {

  datatype Option<T> = None | Some(value: T)

  /** The largest integer a JavaScript number holds exactly (2^53 - 1). */
  const MaxSafeInteger: int := 0x1F_FFFF_FFFF_FFFF

  /** An integer-valued JavaScript number in the exactly representable range;
      every such number is far below 10^21, so `String` renders it in plain
      decimal digits. */
  type SafeInt = n: int | -MaxSafeInteger <= n <= MaxSafeInteger

  /** A scalar JavaScript value. Numbers are safe integers. */
  datatype JsValue =
    | Undefined
    | Null
    | Bool(b: bool)
    | Num(n: SafeInt)
    | Str(s: string)

  /** The own enumerable properties of a plain object. */
  type JsObject = map<string, JsValue>

  /** Property read `o[k]`: a missing property reads as `undefined`. */
  function Get(o: JsObject, k: string): (v: JsValue)
    ensures k in o ==> v == o[k]
    ensures k !in o ==> v == Undefined
  {
    if k in o then o[k] else Undefined
  }

  /** The values that `!v` maps to false: every value except `undefined`,
      `null`, `false`, `0` and the empty string. */
  predicate Truthy(v: JsValue) {
    match v
    case Undefined => false
    case Null => false
    case Bool(b) => b
    case Num(n) => n != 0
    case Str(s) => s != ""
  }

  function Digit(d: nat): (c: char)
    requires d < 10
    ensures '0' <= c <= '9'
  {
    "0123456789"[d]
  }

  function DigitValue(c: char): (d: nat) {
    if '0' <= c <= '9' then (c - '0') as nat else 0
  }

  /** The decimal digits of `n`, most significant first, without leading zeros. */
  function Decimal(n: nat): (s: string)
    ensures |s| > 0
    ensures forall i :: 0 <= i < |s| ==> '0' <= s[i] <= '9'
  {
    if n < 10 then [Digit(n)] else Decimal(n / 10) + [Digit(n % 10)]
  }

  /** Reads a string of decimal digits back as a number. */
  function DecimalValue(s: string): (n: nat) {
    if s == [] then 0 else DecimalValue(s[..|s| - 1]) * 10 + DigitValue(s[|s| - 1])
  }

  /** The number a decimal rendering reads back as is the number rendered. */
  lemma {:induction false} DecimalRoundTrip(n: nat)
    ensures DecimalValue(Decimal(n)) == n
  {
    if n >= 10 {
      var s := Decimal(n);
      assert s[..|s| - 1] == Decimal(n / 10);
      DecimalRoundTrip(n / 10);
    }
  }

  /** `String(v)`, the text that string concatenation inserts for `v`. */
  function ToStr(v: JsValue): (s: string)
    ensures v.Str? ==> s == v.s
    ensures v.Num? && v.n >= 0 ==> DecimalValue(s) == v.n
    ensures v.Num? && v.n < 0 ==> |s| > 1 && s[0] == '-' && DecimalValue(s[1..]) == -v.n
  {
    match v
    case Undefined => "undefined"
    case Null => "null"
    case Bool(b) => if b then "true" else "false"
    case Num(n) =>
      if n >= 0 then (DecimalRoundTrip(n); Decimal(n))
      else (DecimalRoundTrip(-n); "-" + Decimal(-n))
    case Str(s) => s
  }

  /** A plain object that code holds by reference and may change in place. */
  class JsRecord {
    var props: JsObject

    constructor (props: JsObject)
      ensures this.props == props
    {
      this.props := props;
    }
  }
}
