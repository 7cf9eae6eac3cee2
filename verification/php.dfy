/**
 * The pieces of PHP and WordPress semantics that the plugin's rules rest on:
 * string truthiness, the `(int)` cast behind `absint`, `array_map`, and the
 * shape of request (`$_POST`) values.
 */
module Php {

  datatype Option<+T> = None | Some(value: T)

  /** A PHP call that either returns a value or stops with a TypeError. */
  datatype Result<+T> = Success(value: T) | Failure(error: string)

  /** A value of `$_POST`: a single string, or a list of strings (`name[]=...`). */
  datatype FormValue = Scalar(text: string) | Many(items: seq<string>)

  /** PHP truthiness of a string: both "" and "0" are false. */
  predicate Truthy(s: string)
  {
    s != "" && s != "0"
  }

  /** `!empty($v)` for a request value. */
  predicate FormNonEmpty(v: FormValue)
  {
    match v
    case Scalar(s) => Truthy(s)
    case Many(xs) => xs != []
  }

  /**
   * A WordPress text sanitiser applied to a request value: `sanitize` stands for
   * the sanitiser on strings; on an array WordPress returns ''.
   */
  function SanitizeField(sanitize: string -> string, v: FormValue): string
  {
    match v
    case Scalar(s) => sanitize(s)
    case Many(_) => ""
  }

  /** `array_map($f, $xs)` on a list. */
  function MapSeq<A, B>(f: A -> B, xs: seq<A>): (r: seq<B>)
    ensures |r| == |xs|
    ensures forall i :: 0 <= i < |xs| ==> r[i] == f(xs[i])
  {
    if xs == [] then [] else [f(xs[0])] + MapSeq(f, xs[1..])
  }

  predicate IsSpace(c: char)
  {
    c == ' ' || c == '\t' || c == '\n' || c == '\r' || c == '\U{000B}' || c == '\U{000C}'
  }

  predicate IsDigit(c: char)
  {
    '0' <= c <= '9'
  }

  predicate AllDigits(s: string)
  {
    forall i :: 0 <= i < |s| ==> IsDigit(s[i])
  }

  /** The string without its leading whitespace. */
  function SkipSpace(s: string): (r: string)
    ensures |r| <= |s| && r == s[|s| - |r|..]
    ensures r == [] || !IsSpace(r[0])
  {
    if |s| > 0 && IsSpace(s[0]) then SkipSpace(s[1..]) else s
  }

  /** The longest prefix of `s` made of decimal digits. */
  function LeadingDigits(s: string): (r: string)
    ensures r <= s && AllDigits(r)
    ensures |r| < |s| ==> !IsDigit(s[|r|])
  {
    if |s| > 0 && IsDigit(s[0]) then [s[0]] + LeadingDigits(s[1..]) else []
  }

  /** The value of a string of decimal digits, most significant first. */
  function DigitsValue(ds: string): nat
    requires AllDigits(ds)
  {
    if ds == [] then 0 else 10 * DigitsValue(ds[..|ds| - 1]) + (ds[|ds| - 1] as int - '0' as int)
  }

  /**
   * PHP's `(int)` cast of a string: leading whitespace, an optional sign, then
   * the decimal digits up to the first non-digit; no digits gives 0. Only a
   * minus sign gives a negative number, and a string of digits alone is read
   * as its decimal value.
   */
  function IntCast(s: string): (r: int)
    ensures r < 0 ==> |SkipSpace(s)| > 0 && SkipSpace(s)[0] == '-'
    ensures |s| > 0 && AllDigits(s) ==> r == DigitsValue(s)
  {
    var t := SkipSpace(s);
    if |t| > 0 && t[0] == '-' then -(DigitsValue(LeadingDigits(t[1..])) as int)
    else if |t| > 0 && t[0] == '+' then DigitsValue(LeadingDigits(t[1..]))
    else if |s| > 0 && AllDigits(s) then
      assert !IsSpace(s[0]) && t == s;
      LeadingDigitsOfDigits(s);
      DigitsValue(LeadingDigits(t))
    else DigitsValue(LeadingDigits(t))
  }

  /**
   * WordPress `absint`: `abs((int) $value)`, the magnitude of the cast; it is
   * 0 exactly when the cast is, and a string of digits keeps its value.
   */
  function Absint(s: string): (r: nat)
    ensures r == IntCast(s) || r == -IntCast(s)
    ensures r == 0 <==> IntCast(s) == 0
    ensures |s| > 0 && AllDigits(s) ==> r == DigitsValue(s)
  {
    var i := IntCast(s);
    if i < 0 then -i else i
  }

  /** True when no digit follows the leading whitespace and optional sign. */
  predicate NonNumeric(s: string)
  {
    var t := SkipSpace(s);
    var u := if |t| > 0 && (t[0] == '-' || t[0] == '+') then t[1..] else t;
    u == [] || !IsDigit(u[0])
  }

  /** A string with no leading number casts to 0, so `absint` maps it to 0. */
  lemma NonNumericAbsintZero(s: string)
    requires NonNumeric(s)
    ensures Absint(s) == 0
  {
    var t := SkipSpace(s);
    if |t| > 0 && (t[0] == '-' || t[0] == '+') {
      assert LeadingDigits(t[1..]) == [];
    } else {
      assert LeadingDigits(t) == [];
    }
  }

  function DigitChar(d: nat): char
    requires d < 10
  {
    ('0' as int + d) as char
  }

  /** The decimal text of a natural number, as a browser posts an id. */
  function Decimal(n: nat): (s: string)
    ensures |s| > 0 && AllDigits(s)
  {
    if n < 10 then [DigitChar(n)] else Decimal(n / 10) + [DigitChar(n % 10)]
  }

  lemma {:induction false} DecimalValue(n: nat)
    ensures DigitsValue(Decimal(n)) == n
  {
    var s := Decimal(n);
    if n >= 10 {
      DecimalValue(n / 10);
      assert s[..|s| - 1] == Decimal(n / 10);
    }
  }

  lemma {:induction false} LeadingDigitsOfDigits(s: string)
    requires AllDigits(s)
    ensures LeadingDigits(s) == s
  {
    if s != [] {
      LeadingDigitsOfDigits(s[1..]);
    }
  }

  /** An id sent as its decimal text comes back through `absint` unchanged. */
  lemma AbsintDecimal(n: nat)
    ensures Absint(Decimal(n)) == n
  {
    DecimalValue(n);
  }
}
