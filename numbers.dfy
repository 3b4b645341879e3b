/**
 * The two string-to-number conversions the CLI relies on, restricted to
 * decimal natural-number text: `Number(token)` (whole token) and
 * `parseInt(text, 10)` (leading digits).
 */
module Numbers {

  /** A JavaScript number as the CLI sees it: NaN, or an integral value. */
  datatype JsNumber = NaN | Num(value: int)

  /** `x <= y` on JavaScript numbers: false whenever either side is NaN. */
  predicate LessEq(x: JsNumber, y: JsNumber)
  {
    x.Num? && y.Num? && x.value <= y.value
  }

  predicate IsDigit(c: char)
  {
    '0' <= c <= '9'
  }

  predicate AllDigits(s: string)
  {
    forall k :: 0 <= k < |s| ==> IsDigit(s[k])
  }

  function DigitValue(c: char): (d: nat)
    requires IsDigit(c)
    ensures d < 10
  {
    c as int - '0' as int
  }

  function DigitChar(d: nat): (c: char)
    requires d < 10
    ensures IsDigit(c) && DigitValue(c) == d
  {
    ('0' as int + d) as char
  }

  /** The value of a string of decimal digits, most significant first; "" is 0. */
  function DecimalValue(s: string): nat
    requires AllDigits(s)
    decreases |s|
  {
    if |s| == 0 then 0
    else 10 * DecimalValue(s[..|s| - 1]) + DigitValue(s[|s| - 1])
  }

  /** The decimal digits of `n`, without leading zeros. */
  function Decimal(n: nat): (s: string)
    ensures |s| >= 1 && AllDigits(s)
    decreases n
  {
    if n < 10 then [DigitChar(n)] else Decimal(n / 10) + [DigitChar(n % 10)]
  }

  /** `Number(token)`: the whole token must be digits (the empty token is 0), otherwise NaN. */
  function ToNumber(token: string): (r: JsNumber)
    ensures r.Num? <==> forall k :: 0 <= k < |token| ==> IsDigit(token[k])
    ensures token == "" ==> r == Num(0)
    ensures r.Num? ==> r.value >= 0
  {
    if AllDigits(token) then Num(DecimalValue(token)) else NaN
  }

  /** 2^53: the last integer up to which a JavaScript number holds every integer exactly. */
  const SafeLimit: int := 0x20_0000_0000_0000

  /**
   * `i++` on a JavaScript number holding an integer from 0 to 2^53: below
   * 2^53 it adds one; 2^53 + 1 is not representable and rounds to even,
   * back to 2^53. That rounding is taken here as given by IEEE 754
   * double arithmetic, not derived from a model of floating point.
   */
  function DoubleIncrement(i: int): (r: int)
    requires 0 <= i <= SafeLimit
    ensures 0 <= r <= SafeLimit
    ensures i < SafeLimit ==> r == i + 1
    ensures i == SafeLimit ==> r == i
  {
    if i < SafeLimit then i + 1 else i
  }

  /** The longest prefix of `s` made of digits. */
  function DigitPrefix(s: string): (p: string)
    ensures |p| <= |s| && p == s[..|p|] && AllDigits(p)
    ensures |p| < |s| ==> !IsDigit(s[|p|])
    decreases |s|
  {
    if |s| == 0 || !IsDigit(s[0]) then "" else [s[0]] + DigitPrefix(s[1..])
  }

  /** `parseInt(s, 10)`: the value of the leading digits, NaN when there are none. */
  function ParseInt(s: string): (r: JsNumber)
    ensures r.Num? <==> |s| >= 1 && IsDigit(s[0])
    ensures r.Num? ==> r == ToNumber(DigitPrefix(s))
  {
    var p := DigitPrefix(s);
    if p == "" then NaN else Num(DecimalValue(p))
  }

  /** Reading back a rendered number gives the number. */
  lemma {:induction false} DecimalValueOfDecimal(n: nat)
    ensures DecimalValue(Decimal(n)) == n
    decreases n
  {
    if n >= 10 {
      DecimalValueOfDecimal(n / 10);
      var s := Decimal(n);
      assert s[..|s| - 1] == Decimal(n / 10);
    }
  }

  /** `Number` inverts decimal rendering. */
  lemma ToNumberOfDecimal(n: nat)
    ensures ToNumber(Decimal(n)) == Num(n)
  {
    DecimalValueOfDecimal(n);
  }

  /** `parseInt` reads a rendered number back, whatever non-digit text follows it. */
  lemma ParseIntOfDecimal(n: nat, rest: string)
    requires rest == "" || !IsDigit(rest[0])
    ensures ParseInt(Decimal(n) + rest) == Num(n)
  {
    var s := Decimal(n) + rest;
    var d := Decimal(n);
    DigitsPrefix(d, rest);
    DecimalValueOfDecimal(n);
  }

  /** The digit prefix of digits followed by a non-digit is those digits. */
  lemma {:induction false} DigitsPrefix(d: string, rest: string)
    requires AllDigits(d)
    requires rest == "" || !IsDigit(rest[0])
    ensures DigitPrefix(d + rest) == d
    decreases |d|
  {
    if |d| == 0 {
      assert d + rest == rest;
    } else {
      DigitsPrefix(d[1..], rest);
      assert (d + rest)[1..] == d[1..] + rest;
      assert [d[0]] + d[1..] == d;
    }
  }

  /** On a whole token of digits, `parseInt` and `Number` agree. */
  lemma ParseIntAgreesWithNumber(token: string)
    requires |token| >= 1 && AllDigits(token)
    ensures ParseInt(token) == ToNumber(token)
  {
    DigitsPrefix(token, "");
    assert token + "" == token;
  }
}
