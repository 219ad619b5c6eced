/**
 * Number <-> string conversions used by the forms: `Number.prototype.toString`,
 * `parseInt` and `parseFloat`. Amounts are integer cents.
 */
module Numbers {
  import opened Wrappers
  import opened Strings

  predicate IsDigit(c: char) {
    '0' <= c <= '9'
  }

  predicate AllDigits(s: string) {
    forall i :: 0 <= i < |s| ==> IsDigit(s[i])
  }

  function DigitChar(d: nat): (c: char)
    requires d < 10
    ensures IsDigit(c) && c as int - '0' as int == d
  {
    ('0' as int + d) as char
  }

  function DigitValue(c: char): (d: nat)
    requires IsDigit(c)
    ensures d < 10 && DigitChar(d) == c
  {
    c as int - '0' as int
  }

  /** The decimal value of a string of digits. */
  function DigitsValue(s: string): nat
    requires AllDigits(s)
    decreases |s|
  {
    if |s| == 0 then 0 else DigitsValue(s[..|s| - 1]) * 10 + DigitValue(s[|s| - 1])
  }

  /** Decimal notation of a natural number, without leading zeros. */
  function NatToString(n: nat): (s: string)
    ensures |s| >= 1 && AllDigits(s)
    ensures |s| > 1 ==> s[0] != '0'
    decreases n
  {
    if n < 10 then [DigitChar(n)] else NatToString(n / 10) + [DigitChar(n % 10)]
  }

  /** Reading back the digits of a natural number gives the number. */
  lemma {:induction false} NatToStringValue(n: nat)
    ensures DigitsValue(NatToString(n)) == n
    decreases n
  {
    if n >= 10 {
      var s := NatToString(n);
      assert s[..|s| - 1] == NatToString(n / 10);
      NatToStringValue(n / 10);
    }
  }

  /** `String(i)` / `i.toString()` for an integer. */
  function IntToString(i: int): (s: string)
    ensures |s| >= 1
    ensures forall k :: 0 <= k < |s| ==> s[k] == '-' || IsDigit(s[k])
  {
    if i < 0 then "-" + NatToString(-i) else NatToString(i)
  }

  /** The longest prefix of `s` made of digits. */
  function LeadingDigits(s: string): (r: string)
    ensures |r| <= |s| && r == s[..|r|] && AllDigits(r)
    ensures |r| < |s| ==> !IsDigit(s[|r|])
    decreases |s|
  {
    if |s| > 0 && IsDigit(s[0]) then
      var rest := LeadingDigits(s[1..]);
      assert [s[0]] + rest == s[..|rest| + 1];
      [s[0]] + rest
    else ""
  }

  lemma LeadingDigitsOfDigits(s: string, tail: string)
    requires AllDigits(s)
    requires tail == "" || !IsDigit(tail[0])
    ensures LeadingDigits(s + tail) == s
    decreases |s|
  {
    if |s| > 0 {
      assert (s + tail)[1..] == s[1..] + tail;
      LeadingDigitsOfDigits(s[1..], tail);
      assert s == [s[0]] + s[1..];
    } else {
      assert s + tail == tail;
    }
  }

  /**
   * `parseInt(s)` (base 10): skip leading whitespace, read an optional sign and the
   * longest run of digits after it. `None` is NaN, which `JSON.stringify` sends as null.
   */
  function ParseInt(s: string): Option<int>
  {
    var t := TrimStart(s);
    var neg := |t| > 0 && t[0] == '-';
    var body := if |t| > 0 && (t[0] == '-' || t[0] == '+') then t[1..] else t;
    var digits := LeadingDigits(body);
    if digits == "" then None
    else
      var value: int := if neg then -(DigitsValue(digits) as int) else DigitsValue(digits);
      Some(value)
  }

  /** Different integers print differently. */
  lemma IntToStringInjective(x: int, y: int)
    ensures IntToString(x) == IntToString(y) ==> x == y
  {
    ParseIntOfIntToString(x);
    ParseIntOfIntToString(y);
  }

  /** `parseInt(String(i))` gives back `i`. */
  lemma ParseIntOfIntToString(i: int)
    ensures ParseInt(IntToString(i)) == Some(i)
  {
    var s := IntToString(i);
    var n: nat := if i < 0 then -i else i;
    var body := NatToString(n);
    assert !IsWhitespace(s[0]);
    assert TrimStart(s) == s;
    assert i < 0 ==> s[1..] == body;
    LeadingDigitsOfDigits(body, "");
    assert body + "" == body;
    NatToStringValue(n);
  }

  /** The fractional part that JavaScript prints for `cents / 100`: none, one or two digits. */
  function FractionText(f: nat): (s: string)
    requires f < 100
    ensures s == "" <==> f == 0
    ensures s != "" ==> s[0] == '.' && 2 <= |s| <= 3 && AllDigits(s[1..])
  {
    if f == 0 then ""
    else if f % 10 == 0 then "." + [DigitChar(f / 10)]
    else "." + [DigitChar(f / 10), DigitChar(f % 10)]
  }

  /** `(cents / 100).toString()`: a JavaScript number in its shortest decimal form. */
  function ShowCents(c: int): (s: string)
    ensures |s| >= 1
  {
    var m: nat := if c < 0 then -c else c;
    var text := NatToString(m / 100) + FractionText(m % 100);
    if c < 0 then "-" + text else text
  }

  /** Value in cents of an unsigned decimal with at most two fractional digits. */
  function ParseUnsignedCents(s: string): (r: Option<nat>)
  {
    var whole := LeadingDigits(s);
    var k := |whole|;
    if k == 0 then None
    else if k == |s| then Some(DigitsValue(whole) * 100)
    else if s[k] != '.' then None
    else
      var f := s[k + 1..];
      if |f| == 1 && IsDigit(f[0]) then Some(DigitsValue(whole) * 100 + DigitValue(f[0]) * 10)
      else if |f| == 2 && IsDigit(f[0]) && IsDigit(f[1]) then
        Some(DigitsValue(whole) * 100 + DigitValue(f[0]) * 10 + DigitValue(f[1]))
      else None
  }

  /**
   * `parseFloat(s)` on a well-formed amount `[-]digits[.d[d]]`, in cents; any other
   * string is NaN here (`None`).
   */
  function ParseCents(s: string): (r: Option<int>)
  {
    if |s| > 0 && s[0] == '-' then
      match ParseUnsignedCents(s[1..])
      case Some(v) => var neg: int := -(v as int); Some(neg)
      case None => None
    else
      match ParseUnsignedCents(s)
      case Some(v) => var value: int := v; Some(value)
      case None => None
  }

  lemma ParseShownUnsigned(m: nat)
    ensures ParseUnsignedCents(NatToString(m / 100) + FractionText(m % 100)) == Some(m)
  {
    var q, f := m / 100, m % 100;
    assert m == q * 100 + f;
    var whole := NatToString(q);
    var frac := FractionText(f);
    LeadingDigitsOfDigits(whole, frac);
    NatToStringValue(q);
    var s := whole + frac;
    var k := |whole|;
    if f == 0 {
      assert s == whole;
    } else {
      assert s[k] == '.';
      assert s[k + 1..] == frac[1..];
      FractionValue(f);
    }
  }

  /** The digits after the point read back as the two-digit fraction. */
  lemma FractionValue(f: nat)
    requires 0 < f < 100
    ensures var d := FractionText(f)[1..];
      (|d| == 1 && IsDigit(d[0]) && DigitValue(d[0]) * 10 == f) ||
      (|d| == 2 && IsDigit(d[0]) && IsDigit(d[1]) && DigitValue(d[0]) * 10 + DigitValue(d[1]) == f)
  {
    var d := FractionText(f)[1..];
    assert f == (f / 10) * 10 + f % 10;
    if f % 10 == 0 {
      assert d == [DigitChar(f / 10)];
    } else {
      assert d == [DigitChar(f / 10), DigitChar(f % 10)];
    }
  }

  /** `parseFloat((c / 100).toString())` gives back the amount `c`. */
  lemma ParseCentsOfShowCents(c: int)
    ensures ParseCents(ShowCents(c)) == Some(c)
  {
    var m: nat := if c < 0 then -c else c;
    var text := NatToString(m / 100) + FractionText(m % 100);
    ParseShownUnsigned(m);
    if c < 0 {
      assert ShowCents(c)[1..] == text;
    } else {
      assert text[0] != '-';
    }
  }
}
