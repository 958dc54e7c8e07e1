/** JavaScript values as far as the request layer inspects them: their
    truthiness (`if (x)`, `x || y`, `!!x`) and `Number.prototype.toString`
    on integers. */
module JsValues {
  import opened Wrappers

  /** A value read from an untyped place: a thrown error or a response body.
      `Object` stands for any object or array; its tag is opaque. Numbers are
      integers here, so NaN and fractions are not represented. */
  datatype JsValue =
    | Undefined
    | Null
    | Bool(b: bool)
    | Num(n: int)
    | Str(s: string)
    | Object(tag: string)

  /** ECMAScript ToBoolean. */
  predicate Truthy(v: JsValue) {
    match v
    case Undefined => false
    case Null => false
    case Bool(b) => b
    case Num(n) => n != 0
    case Str(s) => s != ""
    case Object(_) => true
  }

  /** `null` or `undefined`: the values whose property reads (`v.data`)
      throw a TypeError. */
  predicate Nullish(v: JsValue) {
    v == Null || v == Undefined
  }

  /** `a || b`: the first operand when it is truthy, otherwise the second. */
  function Or(a: JsValue, b: JsValue): JsValue {
    if Truthy(a) then a else b
  }

  /** Truthiness of an optional number field: `undefined` and `0` are falsy. */
  predicate NumberTruthy(n: Option<int>) {
    n.Some? && n.value != 0
  }

  /** Truthiness of an optional string field: `undefined` and `""` are falsy. */
  predicate StringTruthy(s: Option<string>) {
    s.Some? && s.value != ""
  }

  predicate IsDigits(s: string) {
    forall i :: 0 <= i < |s| ==> '0' <= s[i] <= '9'
  }

  function DigitChar(d: nat): (c: char)
    requires d < 10
    ensures '0' <= c <= '9'
    ensures c as int - '0' as int == d
  {
    (48 + d) as char
  }

  /** Decimal rendering of a natural number, most significant digit first. */
  function NatToDecimal(n: nat): (s: string)
    ensures |s| >= 1 && IsDigits(s)
    ensures s[0] == '0' ==> n == 0
    decreases n
  {
    if n < 10 then [DigitChar(n)] else NatToDecimal(n / 10) + [DigitChar(n % 10)]
  }

  /** The number a string of decimal digits denotes. */
  function DecimalValue(s: string): nat
    requires IsDigits(s)
    decreases |s|
  {
    if s == [] then 0 else 10 * DecimalValue(s[..|s| - 1]) + (s[|s| - 1] as int - '0' as int)
  }

  lemma {:induction false} DecimalRoundTrip(n: nat)
    ensures DecimalValue(NatToDecimal(n)) == n
    decreases n
  {
    if n >= 10 {
      DecimalRoundTrip(n / 10);
      var s := NatToDecimal(n);
      assert s[..|s| - 1] == NatToDecimal(n / 10);
    }
  }

  /** `n.toString()` for an integer `n`: a minus sign for negatives, then the
      decimal digits without leading zeros. */
  function NumberToString(n: int): (s: string)
    ensures s != []
  {
    if n < 0 then "-" + NatToDecimal(-n) else NatToDecimal(n)
  }

  /** What `Number(s)` gives back for the text of an integer: an optional
      minus sign followed by decimal digits. */
  predicate IsIntegerText(s: string) {
    if s != [] && s[0] == '-' then IsDigits(s[1..]) else IsDigits(s)
  }

  function ParseInteger(s: string): int
    requires IsIntegerText(s)
  {
    if s != [] && s[0] == '-' then -(DecimalValue(s[1..]) as int) else DecimalValue(s)
  }

  /** Reading the text back gives the number. */
  lemma NumberTextRoundTrip(n: int)
    ensures IsIntegerText(NumberToString(n))
    ensures ParseInteger(NumberToString(n)) == n
  {
    if n < 0 {
      var x := NatToDecimal(-n);
      assert NumberToString(n) == "-" + x;
      assert ("-" + x)[1..] == x;
      DecimalRoundTrip(-n);
    } else {
      var x := NatToDecimal(n);
      assert '0' <= x[0] <= '9';
      DecimalRoundTrip(n);
    }
  }

  /** Different numbers never render to the same text, so a query value
      identifies the page or limit it came from. */
  lemma NumberToStringInjective(a: int, b: int)
    requires NumberToString(a) == NumberToString(b)
    ensures a == b
  {
    NumberTextRoundTrip(a);
    NumberTextRoundTrip(b);
  }

}
