/** Raw request values as the validators receive them, and the number
    conversions the validators apply to strings. JavaScript numbers are
    modelled as exact reals. */
module Json {
  import opened Wrappers

  /** A field of a parsed JSON body or query string. `Missing` is an absent key
      (undefined); `Other` is an array or object. */
  datatype Value = Missing | Null | Bool(b: bool) | Num(x: real) | Str(s: string) | Other

  /** A validation issue, naming the field it is about. */
  datatype Issue =
    | Required(field: string)    // absent where a value is needed
    | WrongType(field: string)   // present with the wrong type, or NaN
    | TooSmall(field: string)    // below the minimum (length or value)
    | NotInteger(field: string)
    | InvalidEnum(field: string)

  predicate IsDigit(c: char) {
    '0' <= c <= '9'
  }

  /** A non-empty string of decimal digits. */
  predicate IsNumeral(s: string) {
    |s| > 0 && forall k :: 0 <= k < |s| ==> IsDigit(s[k])
  }

  function DigitValue(c: char): nat
    requires IsDigit(c)
  {
    (c as int - '0' as int) as nat
  }

  /** The value of a numeral, most significant digit first. */
  function NumeralValue(s: string): (n: nat)
    requires IsNumeral(s)
    ensures n < Pow10(|s|)
    decreases |s|
  {
    if |s| == 1 then DigitValue(s[0])
    else NumeralValue(s[..|s| - 1]) * 10 + DigitValue(s[|s| - 1])
  }

  function Pow10(n: nat): (p: nat)
    ensures p >= 1
  {
    if n == 0 then 1 else 10 * Pow10(n - 1)
  }

  /** Whether the value is a whole number. */
  predicate IsInteger(x: real) {
    x.Floor as real == x
  }

  /** Index of the first '.' in `s`, or |s| when there is none. */
  function DotAt(s: string): (i: nat)
    ensures i <= |s|
    ensures forall k :: 0 <= k < i ==> s[k] != '.'
    ensures i < |s| ==> s[i] == '.'
  {
    if s == [] then 0 else if s[0] == '.' then 0 else 1 + DotAt(s[1..])
  }

  /** A plain decimal: digits, optionally followed by '.' and more digits. */
  predicate IsDecimal(s: string) {
    var i := DotAt(s);
    IsNumeral(s[..i]) && (i == |s| || IsNumeral(s[i + 1..]))
  }

  function DecimalValue(s: string): (x: real)
    requires IsDecimal(s)
    ensures x >= 0.0
  {
    var i := DotAt(s);
    if i == |s| then NumeralValue(s) as real
    else NumeralValue(s[..i]) as real + NumeralValue(s[i + 1..]) as real / Pow10(|s| - i - 1) as real
  }

  /** A numeral read as a decimal has the numeral's value. */
  lemma NumeralIsDecimal(s: string)
    requires IsNumeral(s)
    ensures IsDecimal(s) && DecimalValue(s) == NumeralValue(s) as real
  {
    assert DotAt(s) == |s|;
    assert s[..|s|] == s;
  }

  /** JavaScript's Number() applied to a value, as coercing validators do;
      None stands for NaN. Strings other than the empty string and plain
      decimals are taken as NaN. */
  function ToNumber(v: Value): (r: Option<real>)
    ensures v.Num? ==> r == Some(v.x)
    ensures v.Str? && IsDecimal(v.s) ==> r == Some(DecimalValue(v.s))
    ensures v.Missing? ==> r == None
  {
    match v
    case Missing => None
    case Null => Some(0.0)
    case Bool(b) => Some(if b then 1.0 else 0.0)
    case Num(x) => Some(x)
    case Str(s) => if s == "" then Some(0.0) else if IsDecimal(s) then Some(DecimalValue(s)) else None
    case Other => None
  }
}
