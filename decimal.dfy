/**
 * A restricted stand-in for Python's `float()` on text: an optional sign,
 * then decimal digits with at most one decimal point, at least one digit
 * in all ("12", "-1.5", ".5", "5."). The value is exact (a `real`).
 */
module Decimal {
  import opened Outcomes

  predicate IsDigit(c: char) {
    '0' <= c <= '9'
  }

  /** Every character is a decimal digit (stated from the end, as DigitsValue reads). */
  predicate AllDigits(s: string) {
    s == [] || (AllDigits(s[..|s| - 1]) && IsDigit(s[|s| - 1]))
  }

  lemma {:induction false} AllDigitsAt(s: string)
    requires AllDigits(s)
    ensures forall i :: 0 <= i < |s| ==> IsDigit(s[i])
  {
    if s != [] {
      AllDigitsAt(s[..|s| - 1]);
      assert forall i :: 0 <= i < |s| - 1 ==> s[i] == s[..|s| - 1][i];
    }
  }

  function DigitValue(c: char): nat
    requires IsDigit(c)
  {
    c as int - '0' as int
  }

  /** The value of a string of decimal digits, most significant first. */
  function DigitsValue(s: string): nat
    requires AllDigits(s)
  {
    if s == [] then 0 else DigitsValue(s[..|s| - 1]) * 10 + DigitValue(s[|s| - 1])
  }

  function Pow10(n: nat): (r: nat)
    ensures r >= 1
  {
    if n == 0 then 1 else 10 * Pow10(n - 1)
  }

  /** The position of the first `c` in `s`, or `|s|` when there is none. */
  function IndexOf(s: string, c: char): (k: nat)
    ensures k <= |s|
    ensures k < |s| ==> s[k] == c
    ensures forall i :: 0 <= i < k ==> s[i] != c
  {
    if s == [] || s[0] == c then 0 else 1 + IndexOf(s[1..], c)
  }

  /** The value of `whole.frac`: `whole` plus `frac` in tenths, hundredths, ... */
  function FixedValue(whole: string, frac: string): real
    requires AllDigits(whole) && AllDigits(frac)
  {
    DigitsValue(whole) as real + DigitsValue(frac) as real / Pow10(|frac|) as real
  }

  lemma {:induction false} IndexOfFirst(s: string, c: char, k: nat)
    requires k < |s| && s[k] == c
    requires forall i :: 0 <= i < k ==> s[i] != c
    ensures IndexOf(s, c) == k
  {
    if k > 0 {
      IndexOfFirst(s[1..], c, k - 1);
    }
  }

  lemma NotAllDigits(s: string, i: nat)
    requires i < |s| && !IsDigit(s[i])
    ensures !AllDigits(s)
  {
    if AllDigits(s) {
      AllDigitsAt(s);
    }
  }

  /** An unsigned literal: digits, optionally split by one '.'. */
  function ParseUnsigned(s: string): (r: Option<real>)
    ensures r.Some? ==> s != [] && (IsDigit(s[|s| - 1]) || s[|s| - 1] == '.')
    ensures r.Some? ==> r.value >= 0.0
  {
    var k := IndexOf(s, '.');
    var whole := s[..k];
    var frac := if k < |s| then s[k + 1..] else "";
    if AllDigits(whole) && AllDigits(frac) && |whole| + |frac| > 0 then
      Some(FixedValue(whole, frac))
    else
      None
  }

  /** `float(s)` on the decimal literals this model admits; `None` where float() raises ValueError. */
  function ParseDecimal(s: string): (r: Option<real>)
    ensures r.Some? ==> s != [] && (IsDigit(s[|s| - 1]) || s[|s| - 1] == '.')
  {
    if s != [] && (s[0] == '-' || s[0] == '+') then
      match ParseUnsigned(s[1..])
      case None => None
      case Some(v) => Some(if s[0] == '-' then -v else v)
    else
      ParseUnsigned(s)
  }

  /** The decimal text of a natural number, as Go's and Python's formatters write it. */
  function NatText(n: nat): (s: string)
    ensures s != [] && AllDigits(s)
  {
    if n < 10 then
      var t: string := ['0' + n as char];
      assert t[..0] == [] && AllDigits([]);
      t
    else
      var t := NatText(n / 10);
      assert (t + ['0' + (n % 10) as char])[..|t|] == t;
      t + ['0' + (n % 10) as char]
  }

  lemma {:induction false} NatTextValue(n: nat)
    ensures DigitsValue(NatText(n)) == n
  {
    if n >= 10 {
      NatTextValue(n / 10);
      var s := NatText(n);
      assert s[..|s| - 1] == NatText(n / 10);
    }
  }

  /** Reading back the text of a natural number gives that number. */
  lemma ParseNatText(n: nat)
    ensures ParseDecimal(NatText(n)) == Some(n as real)
  {
    var s := NatText(n);
    NatTextValue(n);
    AllDigitsAt(s);
    assert IndexOf(s, '.') == |s|;
    assert s[..|s|] == s;
  }

  /** `whole.frac` reads as `whole` plus `frac` in tenths, hundredths, ... */
  lemma ParseFixedPoint(whole: string, frac: string)
    requires AllDigits(whole) && AllDigits(frac) && |whole| + |frac| > 0
    ensures ParseUnsigned(whole + "." + frac) == Some(FixedValue(whole, frac))
  {
    var s := whole + "." + frac;
    AllDigitsAt(whole);
    IndexOfFirst(s, '.', |whole|);
    assert s[..|whole|] == whole;
    assert s[|whole| + 1..] == frac;
  }

  /** A leading sign applies to the whole unsigned literal after it. */
  lemma ParseSigned(t: string)
    ensures ParseDecimal(['-'] + t) ==
      (if ParseUnsigned(t).Some? then Some(-ParseUnsigned(t).value) else None)
    ensures ParseDecimal(['+'] + t) == ParseUnsigned(t)
  {
    assert (['-'] + t)[1..] == t;
    assert (['+'] + t)[1..] == t;
  }

  /** Any non-empty string of digits, leading zeros included, reads as its value. */
  lemma ParseDigits(d: string)
    requires d != [] && AllDigits(d)
    ensures ParseDecimal(d) == Some(DigitsValue(d) as real)
  {
    AllDigitsAt(d);
    assert IndexOf(d, '.') == |d|;
    assert d[..|d|] == d;
    assert Pow10(0) == 1;
  }

  /** A string that ends in neither a digit nor '.' is not a number. */
  lemma NotNumericAfterSuffix(p: string, c: char)
    requires !IsDigit(c) && c != '.'
    ensures ParseDecimal(p + [c]) == None
  {
    var s := p + [c];
    assert s[|s| - 1] == c;
  }

  lemma DigitExamples()
    ensures DigitsValue("0") == 0 && DigitsValue("1") == 1 && DigitsValue("2") == 2
    ensures DigitsValue("5") == 5
  {
    assert "0"[..0] == "" && "1"[..0] == "" && "2"[..0] == "" && "5"[..0] == "";
  }

  /** float("1.2") is 1.2. */
  lemma FractionExample()
    ensures ParseDecimal("1.2") == Some(1.2)
  {
    DigitExamples();
    assert Pow10(1) == 10;
    ParseFixedPoint("1", "2");
    assert "1" + "." + "2" == "1.2";
    assert FixedValue("1", "2") == 1.2;
    assert ParseUnsigned("1.2") == Some(1.2);
  }

  /** float("-0.5") is -0.5: a leading sign applies to the whole literal. */
  lemma SignedExample()
    ensures ParseDecimal("-0.5") == Some(-0.5)
  {
    DigitExamples();
    assert Pow10(1) == 10;
    ParseFixedPoint("0", "5");
    assert "0" + "." + "5" == "0.5";
    assert FixedValue("0", "5") == 0.5;
    assert ParseUnsigned("0.5") == Some(0.5);
    assert "-0.5"[1..] == "0.5";
  }

  /** float("5.") is 5.0: a trailing point is allowed. */
  lemma TrailingPointExample()
    ensures ParseDecimal("5.") == Some(5.0)
  {
    DigitExamples();
    assert Pow10(0) == 1;
    ParseFixedPoint("5", "");
    assert "5" + "." + "" == "5.";
    assert FixedValue("5", "") == 5.0;
  }

  /** Strings float() rejects. */
  lemma NonDecimalExamples()
    ensures ParseDecimal(".") == None
    ensures ParseDecimal("") == None
    ensures ParseDecimal("-") == None
    ensures ParseDecimal("1.2.3") == None
    ensures ParseDecimal("1.2M") == None
  {
    assert IndexOf(".", '.') == 0;
    assert "-"[1..] == "";
    var t := "1.2.3";
    assert IndexOf(t, '.') == 1;
    assert t[2..][1] == '.';
    NotAllDigits(t[2..], 1);
    NotNumericAfterSuffix("1.2", 'M');
    assert "1.2" + ['M'] == "1.2M";
  }
}
