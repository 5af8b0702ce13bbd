/**
 * The few JavaScript string and number primitives the storefront relies on:
 * `String.prototype.trim`, `toLowerCase`, `includes`, the string-to-number
 * conversion behind `Number(s)`, and the decimal rendering of a count.
 */
module JsText {
  import opened Wrappers

  /** The characters `trim` removes: ECMAScript WhiteSpace and LineTerminator. */
  predicate IsJsSpace(c: char) {
    || c == ' ' || c == '\t' || c == '\n' || c == '\r' || c == '\U{000B}' || c == '\U{000C}'
    || c == '\U{00A0}' || c == '\U{1680}' || ('\U{2000}' <= c <= '\U{200A}')
    || c == '\U{2028}' || c == '\U{2029}' || c == '\U{202F}' || c == '\U{205F}'
    || c == '\U{3000}' || c == '\U{FEFF}'
  }

  /** `trimStart`: the suffix left after dropping every leading space. */
  function TrimStart(s: string): (r: string)
    ensures |r| <= |s| && r == s[|s| - |r|..]
    ensures forall k :: 0 <= k < |s| - |r| ==> IsJsSpace(s[k])
    ensures r != [] ==> !IsJsSpace(r[0])
  {
    if s != [] && IsJsSpace(s[0]) then TrimStart(s[1..]) else s
  }

  /** `trimEnd`: the prefix left after dropping every trailing space. */
  function TrimEnd(s: string): (r: string)
    ensures |r| <= |s| && r == s[..|r|]
    ensures forall k :: |r| <= k < |s| ==> IsJsSpace(s[k])
    ensures r != [] ==> !IsJsSpace(r[|r| - 1])
  {
    if s != [] && IsJsSpace(s[|s| - 1]) then TrimEnd(s[..|s| - 1]) else s
  }

  /** `trim`: what is left of `s` once the leading spaces (see TrimStart) and then
      the trailing spaces are dropped; neither end of the result is a space. */
  function Trim(s: string): (r: string)
    ensures |r| <= |TrimStart(s)| && r == TrimStart(s)[..|r|]
    ensures forall k :: |r| <= k < |TrimStart(s)| ==> IsJsSpace(TrimStart(s)[k])
    ensures r != [] ==> !IsJsSpace(r[0]) && !IsJsSpace(r[|r| - 1])
  {
    TrimEnd(TrimStart(s))
  }

  /** A string made only of spaces trims to the empty string. */
  lemma TrimAllSpace(s: string)
    requires forall k :: 0 <= k < |s| ==> IsJsSpace(s[k])
    ensures Trim(s) == []
  {
  }

  /** A string that neither starts nor ends with a space is its own trim. */
  lemma TrimUnchanged(s: string)
    requires s != [] ==> !IsJsSpace(s[0]) && !IsJsSpace(s[|s| - 1])
    ensures Trim(s) == s
  {
    assert TrimStart(s) == s;
    assert TrimEnd(s) == s;
  }

  /** Trimming twice is trimming once. */
  lemma TrimIdempotent(s: string)
    ensures Trim(Trim(s)) == Trim(s)
  {
    TrimUnchanged(Trim(s));
  }

  /** `toLowerCase` on one character: ASCII and Latin-1 capitals map to their small letters. */
  function LowerChar(c: char): (r: char)
    ensures ('A' <= c <= 'Z') ==> r as int == c as int + 32
    ensures !('A' <= c <= 'Z') && !('\U{00C0}' <= c <= '\U{00DE}') ==> r == c
    ensures !('A' <= r <= 'Z')
  {
    if 'A' <= c <= 'Z' || ('\U{00C0}' <= c <= '\U{00DE}' && c != '\U{00D7}') then
      (c as int + 32) as char
    else
      c
  }

  /** `toLowerCase`, character by character. */
  function ToLower(s: string): (r: string)
    ensures |r| == |s|
    ensures forall k :: 0 <= k < |s| ==> r[k] == LowerChar(s[k])
  {
    seq(|s|, k requires 0 <= k < |s| => LowerChar(s[k]))
  }

  /**
   * A string's `length`: JavaScript counts UTF-16 code units, so a character
   * outside the Basic Multilingual Plane counts twice.
   */
  function Utf16Length(s: string): (n: nat)
    ensures |s| <= n <= 2 * |s|
    ensures (forall k :: 0 <= k < |s| ==> s[k] <= '\U{FFFF}') ==> n == |s|
  {
    if s == [] then 0 else (if s[0] <= '\U{FFFF}' then 1 else 2) + Utf16Length(s[1..])
  }

  /** The UTF-16 code units of one character: itself, or its surrogate pair. */
  function CharUnits(c: char): (r: seq<int>)
    ensures |r| == (if c <= '\U{FFFF}' then 1 else 2)
    ensures forall k :: 0 <= k < |r| ==> 0 <= r[k] <= 0xFFFF
  {
    if c <= '\U{FFFF}' then [c as int]
    else
      var v := c as int - 0x1_0000;
      [0xD800 + v / 0x400, 0xDC00 + v % 0x400]
  }

  /** The UTF-16 code units of a string, the units JavaScript compares strings by. */
  function Utf16Units(s: string): (r: seq<int>)
    ensures |r| == Utf16Length(s)
  {
    if s == [] then [] else CharUnits(s[0]) + Utf16Units(s[1..])
  }

  /** Lexicographic order on code-unit sequences; a prefix comes first. */
  predicate UnitsLessEq(a: seq<int>, b: seq<int>)
    decreases |a|
  {
    a == [] || (b != [] && (a[0] < b[0] || (a[0] == b[0] && UnitsLessEq(a[1..], b[1..]))))
  }

  lemma {:induction false} UnitsLessEqTotal(a: seq<int>, b: seq<int>)
    ensures UnitsLessEq(a, b) || UnitsLessEq(b, a)
    decreases |a|
  {
    if a != [] && b != [] && a[0] == b[0] {
      UnitsLessEqTotal(a[1..], b[1..]);
    }
  }

  lemma {:induction false} UnitsLessEqTransitive(a: seq<int>, b: seq<int>, c: seq<int>)
    requires UnitsLessEq(a, b) && UnitsLessEq(b, c)
    ensures UnitsLessEq(a, c)
    decreases |a|
  {
    if a != [] && a[0] == b[0] && b[0] == c[0] {
      UnitsLessEqTransitive(a[1..], b[1..], c[1..]);
    }
  }

  /** The default order of `Array.prototype.sort` on strings: by UTF-16 code units. */
  predicate StringLessEq(a: string, b: string) {
    UnitsLessEq(Utf16Units(a), Utf16Units(b))
  }

  /** `sub` occurs in `s` starting at position `k`. */
  predicate OccursAt(s: string, sub: string, k: int) {
    0 <= k <= |s| - |sub| && s[k..k + |sub|] == sub
  }

  /** `s.includes(sub)`: `sub` occurs in `s` at some position. */
  predicate Includes(s: string, sub: string) {
    exists k | 0 <= k <= |s| :: OccursAt(s, sub, k)
  }

  lemma IncludesEmpty(s: string)
    ensures Includes(s, [])
  {
    assert OccursAt(s, [], 0);
  }

  predicate IsDigit(c: char) {
    '0' <= c <= '9'
  }

  predicate AllDigits(s: string) {
    forall k :: 0 <= k < |s| ==> IsDigit(s[k])
  }

  function DigitValue(c: char): (d: nat)
    requires IsDigit(c)
    ensures d < 10
  {
    c as int - '0' as int
  }

  function DigitChar(d: nat): (c: char)
    requires d < 10
    ensures IsDigit(c) && DigitValue(c) == d
  {
    ('0' as int + d) as char
  }

  /** The value of a run of decimal digits, most significant first. */
  function DigitsValue(s: string): nat
    requires AllDigits(s)
  {
    if s == [] then 0 else DigitsValue(s[..|s| - 1]) * 10 + DigitValue(s[|s| - 1])
  }

  function Pow10(n: nat): (p: nat)
    ensures p >= 1
  {
    if n == 0 then 1 else 10 * Pow10(n - 1)
  }

  /** The position of the first `c` in `s`, or `|s|` when there is none. */
  function IndexOf(s: string, c: char): (r: nat)
    ensures r <= |s|
    ensures r < |s| ==> s[r] == c
    ensures forall k :: 0 <= k < r ==> s[k] != c
  {
    if s == [] then 0 else if s[0] == c then 0 else 1 + IndexOf(s[1..], c)
  }

  /** A JavaScript number as far as this storefront can produce one: a finite value or NaN. */
  datatype JsNumber = Finite(value: real) | NaN

  /** The digits-and-point part of a literal: digits, digits '.' digits, digits '.', or '.' digits. */
  function DecimalMantissa(s: string): (r: Option<real>)
    ensures r.Some? ==> r.value >= 0.0
    ensures r.Some? ==> s != [] && (forall k :: 0 <= k < |s| ==> IsDigit(s[k]) || s[k] == '.')
  {
    var dot := IndexOf(s, '.');
    if dot == |s| then
      if s != [] && AllDigits(s) then Some(DigitsValue(s) as real) else None
    else
      var whole, frac := s[..dot], s[dot + 1..];
      if AllDigits(whole) && AllDigits(frac) && (whole != [] || frac != []) then
        assert forall k :: 0 <= k < |s| && k != dot ==> IsDigit(if k < dot then whole[k] else frac[k - dot - 1]);
        Some(DigitsValue(whole) as real + DigitsValue(frac) as real / Pow10(|frac|) as real)
      else
        None
  }

  /** The position of the first exponent marker, `e` or `E`, or `|s|` when there is none. */
  function ExponentAt(s: string): (r: nat)
    ensures r <= |s|
    ensures r < |s| ==> s[r] == 'e' || s[r] == 'E'
    ensures forall k :: 0 <= k < r ==> s[k] != 'e' && s[k] != 'E'
  {
    if s == [] then 0 else if s[0] == 'e' || s[0] == 'E' then 0 else 1 + ExponentAt(s[1..])
  }

  /** The text after the marker: an optional sign, then at least one digit. */
  function ExponentValue(s: string): Option<int> {
    var digits := if s != [] && (s[0] == '+' || s[0] == '-') then s[1..] else s;
    if digits != [] && AllDigits(digits) then
      Some(if s[0] == '-' then -(DigitsValue(digits) as int) else DigitsValue(digits))
    else
      None
  }

  /** `m` times ten to the power `x`. */
  function Scaled(m: real, x: int): (r: real)
    ensures m >= 0.0 ==> r >= 0.0
  {
    if x >= 0 then m * Pow10(x) as real else m / Pow10(-x) as real
  }

  /** An unsigned decimal literal: a mantissa, then optionally `e` or `E` and a signed exponent. */
  function UnsignedDecimal(s: string): (r: Option<real>)
    ensures r.Some? ==> r.value >= 0.0
  {
    var e := ExponentAt(s);
    if e == |s| then DecimalMantissa(s)
    else
      match (DecimalMantissa(s[..e]), ExponentValue(s[e + 1..]))
      case (Some(m), Some(x)) => Some(Scaled(m, x))
      case _ => None
  }

  /** A trimmed, non-empty numeric literal: an optional sign, then an unsigned decimal. */
  function SignedDecimal(t: string): JsNumber
    requires t != []
  {
    var body := if t[0] == '-' || t[0] == '+' then t[1..] else t;
    match UnsignedDecimal(body)
    case Some(v) => Finite(if t[0] == '-' then -v else v)
    case None => NaN
  }

  /**
   * `Number(s)` for a string: surrounding spaces are ignored, the empty string is 0,
   * and otherwise an optional sign and an unsigned decimal literal; anything else is NaN.
   */
  function StringToNumber(s: string): (r: JsNumber)
    ensures (forall k :: 0 <= k < |s| ==> IsJsSpace(s[k])) ==> r == Finite(0.0)
  {
    var t := Trim(s);
    if t == [] then Finite(0.0) else SignedDecimal(t)
  }

  /** "5.000" is five: the '.' is a decimal point, not a thousands separator. */
  lemma FiveDotZeros()
    ensures SignedDecimal("5.000") == Finite(5.0)
  {
    var s := "5.000";
    assert IndexOf(s, '.') == 1;
    assert s[..1] == "5" && s[2..] == "000";
    assert "000"[..2] == "00" && "00"[..1] == "0" && "0"[..0] == "" && "5"[..0] == "";
  }

  /** A mantissa has at most one '.'. */
  lemma MantissaTwoDots(m: string, i: int, j: int)
    requires 0 <= i < j < |m| && m[i] == '.' && m[j] == '.'
    ensures DecimalMantissa(m).None?
  {
    var dot := IndexOf(m, '.');
    assert dot <= i;
    assert m[dot + 1..][j - dot - 1] == '.';
  }

  /** An unsigned literal has at most one '.', and none in its exponent. */
  lemma UnsignedTwoDots(body: string, i: int, j: int)
    requires 0 <= i < j < |body| && body[i] == '.' && body[j] == '.'
    ensures UnsignedDecimal(body).None?
  {
    var e := ExponentAt(body);
    if e == |body| {
      MantissaTwoDots(body, i, j);
    } else if j < e {
      var m := body[..e];
      assert m[i] == '.' && m[j] == '.';
      MantissaTwoDots(m, i, j);
    } else {
      var x := body[e + 1..];
      var digits := if x != [] && (x[0] == '+' || x[0] == '-') then x[1..] else x;
      if x[0] == '+' || x[0] == '-' {
        assert digits[j - e - 2] == '.';
      } else {
        assert digits[j - e - 1] == '.';
      }
    }
  }

  /** Without an exponent marker the literal is its mantissa. */
  lemma NoExponent(s: string)
    requires forall k :: 0 <= k < |s| ==> s[k] != 'e' && s[k] != 'E'
    ensures UnsignedDecimal(s) == DecimalMantissa(s)
  {
  }

  /** Digits, `e` and digits read as the first digits' value times ten to the second's. */
  lemma ExponentReading(m: string, x: string)
    requires m != [] && AllDigits(m) && x != [] && AllDigits(x)
    ensures StringToNumber(m + "e" + x) == Finite(Scaled(DigitsValue(m) as real, DigitsValue(x)))
  {
    var s := m + "e" + x;
    ExponentUntrimmed(m, x);
    assert s[0] == m[0];
    ExponentLiteral(m, x);
    UnsignedReading(s, Scaled(DigitsValue(m) as real, DigitsValue(x)));
  }

  lemma ExponentUntrimmed(m: string, x: string)
    requires m != [] && AllDigits(m) && AllDigits(x)
    ensures StringToNumber(m + "e" + x) == SignedDecimal(m + "e" + x)
  {
    var s := m + "e" + x;
    forall k | 0 <= k < |s| ensures !IsJsSpace(s[k]) {
      assert IsDigit(s[k]) || s[k] == 'e';
    }
    NoSpaceNumber(s);
  }

  /** A literal without a sign reads as its unsigned value. */
  lemma UnsignedReading(t: string, v: real)
    requires t != [] && t[0] != '-' && t[0] != '+' && UnsignedDecimal(t) == Some(v)
    ensures SignedDecimal(t) == Finite(v)
  {
  }

  lemma ExponentLiteral(m: string, x: string)
    requires m != [] && AllDigits(m) && x != [] && AllDigits(x)
    ensures UnsignedDecimal(m + "e" + x) == Some(Scaled(DigitsValue(m) as real, DigitsValue(x)))
  {
    var s := m + "e" + x;
    MarkerAfterDigits(m, x);
    assert s[..|m|] == m && s[|m| + 1..] == x;
    DigitsMantissa(m);
    DigitsExponent(x);
  }

  /** An unsigned run of digits is an exponent worth its decimal value. */
  lemma DigitsExponent(x: string)
    requires x != [] && AllDigits(x)
    ensures ExponentValue(x) == Some(DigitsValue(x) as int)
  {
    assert IsDigit(x[0]);
  }

  /** A non-negative exponent multiplies by a power of ten. */
  lemma ScaledUp(m: real, n: nat)
    ensures Scaled(m, n) == m * Pow10(n) as real
  {
  }

  lemma MarkerAfterDigits(m: string, x: string)
    requires AllDigits(m)
    ensures ExponentAt(m + "e" + x) == |m|
  {
    var s := m + "e" + x;
    assert s[|m|] == 'e';
  }

  /** A run of digits is a mantissa worth its decimal value. */
  lemma DigitsMantissa(m: string)
    requires m != [] && AllDigits(m)
    ensures DecimalMantissa(m) == Some(DigitsValue(m) as real)
  {
  }

  /** `Number("1e3")` is 1000, as a `type="number"` field may hold it. */
  lemma ThousandInExponentForm()
    ensures StringToNumber("1e3") == Finite(1000.0)
  {
    assert "1" + "e" + "3" == "1e3";
    ExponentReading("1", "3");
    OneTimesTenCubed();
  }

  lemma OneTimesTenCubed()
    ensures Scaled(DigitsValue("1") as real, DigitsValue("3")) == 1000.0
  {
    assert DigitsValue("1") == 1 && DigitsValue("3") == 3 by {
      assert "1"[..0] == [] && "3"[..0] == [];
    }
    ScaledUp(1.0, 3);
    assert Pow10(3) == 1000;
  }

  /** A literal with two '.' is not a number, signed or not. */
  lemma SignedTwoDots(t: string, i: int, j: int)
    requires 0 <= i < j < |t| && t[i] == '.' && t[j] == '.'
    ensures SignedDecimal(t) == NaN
  {
    if t[0] == '-' || t[0] == '+' {
      assert t[1..][i - 1] == '.' && t[1..][j - 1] == '.';
      UnsignedTwoDots(t[1..], i - 1, j - 1);
    } else {
      UnsignedTwoDots(t, i, j);
    }
  }

  /** Without an exponent marker, a '-' after the first character makes the literal NaN. */
  lemma SignedInnerMinus(t: string, i: int)
    requires forall k :: 0 <= k < |t| ==> t[k] != 'e' && t[k] != 'E'
    requires 0 < i < |t| && t[i] == '-'
    ensures SignedDecimal(t) == NaN
  {
    var body := if t[0] == '-' || t[0] == '+' then t[1..] else t;
    var at := if t[0] == '-' || t[0] == '+' then i - 1 else i;
    assert body[at] == '-';
    NoExponent(body);
  }

  /** A lone '-' or '.' is not a number. */
  lemma LoneSignOrDot(t: string)
    requires t == "-" || t == "."
    ensures SignedDecimal(t) == NaN
  {
    var body := if t[0] == '-' || t[0] == '+' then t[1..] else t;
    NoExponent(body);
    assert IndexOf(".", '.') == 0;
  }

  /** A non-empty string without spaces is read as a signed decimal literal. */
  lemma NoSpaceNumber(t: string)
    requires t != [] && forall k :: 0 <= k < |t| ==> !IsJsSpace(t[k])
    ensures StringToNumber(t) == SignedDecimal(t)
  {
    TrimUnchanged(t);
  }

  /** `String(n)` for a natural number: its decimal digits, without leading zeros. */
  function DecimalText(n: nat): (s: string)
    ensures s != [] && AllDigits(s)
    ensures |s| > 1 ==> s[0] != '0'
  {
    if n < 10 then [DigitChar(n)] else DecimalText(n / 10) + [DigitChar(n % 10)]
  }

  /** Reading the rendered digits back gives the number. */
  lemma {:induction false} DecimalTextValue(n: nat)
    ensures DigitsValue(DecimalText(n)) == n
  {
    if n >= 10 {
      var s := DecimalText(n);
      assert s[..|s| - 1] == DecimalText(n / 10);
      DecimalTextValue(n / 10);
    }
  }

  /** A non-empty run of digits is read as its decimal value. */
  lemma DigitsToNumber(s: string)
    requires s != [] && AllDigits(s)
    ensures StringToNumber(s) == Finite(DigitsValue(s) as real)
  {
    NoSpaceNumber(s);
    assert IndexOf(s, '.') == |s|;
  }

  /** `Number(String(n)) == n` for every natural number. */
  lemma DecimalTextRoundTrip(n: nat)
    ensures StringToNumber(DecimalText(n)) == Finite(n as real)
  {
    DecimalTextValue(n);
    DigitsToNumber(DecimalText(n));
  }
}
