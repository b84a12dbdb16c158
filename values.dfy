/** Values that cross the message channel, and the JavaScript conversions the
    client applies to them (truthiness, String(v), decimal numerals). */
module Values {

  datatype Option<+T> = None | Some(value: T)

  datatype Result<+T, +E> = Success(value: T) | Failure(error: E)

  /** A JSON value as JSON.parse hands it to the client. Numbers are integers
      in this model. Composite is an array or an object; it carries the string
      that String(value) yields for it (e.g. "[object Object]"). */
  datatype Value =
    | Null
    | Bool(b: bool)
    | Number(n: int)
    | Str(s: string)
    | Composite(text: string)

  /** JavaScript truthiness of a parsed JSON value: null, false, 0 and ""
      are the only falsy JSON values. */
  function Truthy(v: Value): (b: bool)
    ensures !b <==> v == Null || v == Bool(false) || v == Number(0) || v == Str("")
  {
    match v
    case Null => false
    case Bool(b) => b
    case Number(n) => n != 0
    case Str(s) => s != ""
    case Composite(_) => true
  }

  predicate IsDigit(c: char) {
    '0' <= c <= '9'
  }

  predicate AllDigits(s: string) {
    forall i :: 0 <= i < |s| ==> IsDigit(s[i])
  }

  function DigitChar(d: nat): (c: char)
    requires d < 10
    ensures IsDigit(c)
  {
    (d + '0' as int) as char
  }

  function DigitValue(c: char): (d: nat)
    requires IsDigit(c)
    ensures d < 10
  {
    c as int - '0' as int
  }

  /** The decimal numeral JavaScript prints for a non-negative integer. */
  function Decimal(n: nat): (s: string)
    ensures |s| >= 1 && AllDigits(s)
    ensures |s| > 1 ==> s[0] != '0'
  {
    if n < 10 then [DigitChar(n)] else Decimal(n / 10) + [DigitChar(n % 10)]
  }

  /** Reads a string of decimal digits back as a number. */
  function ParseDecimal(s: string): nat
    requires AllDigits(s)
  {
    if s == [] then 0 else ParseDecimal(s[..|s| - 1]) * 10 + DigitValue(s[|s| - 1])
  }

  lemma {:induction false} ParseDecimalOfDecimal(n: nat)
    ensures ParseDecimal(Decimal(n)) == n
  {
    if n >= 10 {
      var s := Decimal(n);
      assert s[..|s| - 1] == Decimal(n / 10);
      ParseDecimalOfDecimal(n / 10);
    }
  }

  /** Distinct numbers have distinct numerals. */
  lemma DecimalInjective(a: nat, b: nat)
    ensures Decimal(a) == Decimal(b) ==> a == b
  {
    ParseDecimalOfDecimal(a);
    ParseDecimalOfDecimal(b);
  }

  /** String(v): the text JavaScript gives a value when it is used as a
      property key or as the message of `new Error(v)`. */
  function JsString(v: Value): (r: string)
    ensures v.Str? ==> r == v.s
    ensures v.Number? && v.n >= 0 ==>
      && AllDigits(r) && ParseDecimal(r) == v.n
      && |r| >= 1 && (|r| > 1 ==> r[0] != '0')
    ensures v.Number? && v.n < 0 ==>
      && |r| >= 2 && r[0] == '-' && AllDigits(r[1..]) && ParseDecimal(r[1..]) == -v.n
      && (|r| > 2 ==> r[1] != '0')
  {
    match v
    case Null => "null"
    case Bool(b) => if b then "true" else "false"
    case Number(n) =>
      ParseDecimalOfDecimal(if n < 0 then -n else n);
      if n < 0 then "-" + Decimal(-n) else Decimal(n)
    case Str(s) => s
    case Composite(text) => text
  }
}
