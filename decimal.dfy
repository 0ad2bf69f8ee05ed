/**
  Decimal text for integers: the part of Python's `str(int)` and `int(str)` that the
  backend relies on (`ShipmentItem.__str__` prints a quantity, the CSV import parses one).
*/
module Decimal {
  import opened Wrappers

  predicate IsDigit(c: char) {
    '0' <= c <= '9'
  }

  predicate AllDigits(s: string) {
    forall i :: 0 <= i < |s| ==> IsDigit(s[i])
  }

  function DigitChar(d: nat): (c: char)
    requires d < 10
    ensures IsDigit(c)
  {
    ['0', '1', '2', '3', '4', '5', '6', '7', '8', '9'][d]
  }

  function DigitValue(c: char): (d: nat)
    requires IsDigit(c)
    ensures d < 10 && DigitChar(d) == c
  {
    (c as int - '0' as int) as nat
  }

  /** The shortest decimal digits of `n`, most significant first ("0" for zero). */
  function NatToString(n: nat): (s: string)
    ensures |s| > 0 && AllDigits(s)
    ensures |s| > 1 ==> s[0] != '0'
    decreases n
  {
    if n < 10 then [DigitChar(n)] else NatToString(n / 10) + [DigitChar(n % 10)]
  }

  /** Python's `str(n)` for an int: a minus sign for negatives, then the digits. */
  function IntToString(n: int): (s: string)
    ensures |s| > 0
    ensures n < 0 <==> s[0] == '-'
  {
    if n < 0 then "-" + NatToString(-n) else NatToString(n)
  }

  /** The value of a string of decimal digits, read most significant first. */
  function DigitsValue(s: string): (n: nat)
    requires AllDigits(s)
    decreases |s|
  {
    if s == [] then 0 else DigitsValue(s[..|s| - 1]) * 10 + DigitValue(s[|s| - 1])
  }

  /**
    Python's `int(s)` restricted to an optional sign followed by one or more ASCII digits;
    any other text raises ValueError, modelled as None.
  */
  function ParseInt(s: string): (r: Option<int>)
    ensures r.Some? <==> (|s| > 0 && (s[0] == '-' || s[0] == '+') && |s| > 1 && AllDigits(s[1..]))
                         || (|s| > 0 && AllDigits(s))
    ensures r.Some? && s[0] == '-' ==> r.value == -(DigitsValue(s[1..]) as int)
    ensures r.Some? && s[0] == '+' ==> r.value == DigitsValue(s[1..])
    ensures r.Some? && s[0] != '-' && s[0] != '+' ==> r.value == DigitsValue(s)
  {
    if |s| > 0 && (s[0] == '-' || s[0] == '+') then
      if |s| > 1 && AllDigits(s[1..]) then
        var magnitude: int := DigitsValue(s[1..]);
        Some(if s[0] == '-' then -magnitude else magnitude)
      else None
    else if |s| > 0 && AllDigits(s) then Some(DigitsValue(s))
    else None
  }

  lemma {:induction false} NatRoundTrip(n: nat)
    ensures DigitsValue(NatToString(n)) == n
    decreases n
  {
    var s := NatToString(n);
    if n < 10 {
      assert s[..|s| - 1] == [];
    } else {
      NatRoundTrip(n / 10);
      assert s[..|s| - 1] == NatToString(n / 10);
    }
  }

  /** Leading zeros do not change the value of a digit string. */
  lemma {:induction false} LeadingZeroIgnored(s: string)
    requires AllDigits(s)
    ensures AllDigits("0" + s) && DigitsValue("0" + s) == DigitsValue(s)
    decreases |s|
  {
    var t := "0" + s;
    assert AllDigits(t) by {
      forall i | 0 <= i < |t| ensures IsDigit(t[i]) {
        if i > 0 { assert t[i] == s[i - 1]; }
      }
    }
    if s != [] {
      var init := s[..|s| - 1];
      assert t[..|t| - 1] == "0" + init && t[|t| - 1] == s[|s| - 1];
      LeadingZeroIgnored(init);
    }
  }

  /** `int()` reads "+d", "0d" and "d" alike, and "-0" as zero. */
  lemma SignAndZerosIgnored(digits: string)
    requires |digits| > 0 && AllDigits(digits)
    ensures ParseInt("+" + digits) == ParseInt(digits)
    ensures ParseInt("0" + digits) == ParseInt(digits)
    ensures ParseInt("-0") == Some(0)
  {
    var plus := "+" + digits;
    assert plus[0] == '+' && plus[1..] == digits;
    LeadingZeroIgnored(digits);
    var zero := "0" + digits;
    assert zero[0] == '0';
    var minusZero := "-0";
    assert minusZero[1..] == "0";
    assert DigitsValue("0") == DigitsValue("0"[..0]) * 10 + DigitValue('0');
  }

  /** Printing an int and parsing it back gives the same int. */
  lemma IntRoundTrip(n: int)
    ensures ParseInt(IntToString(n)) == Some(n)
  {
    var digits := NatToString(if n < 0 then -n else n);
    NatRoundTrip(if n < 0 then -n else n);
    if n < 0 {
      var s := "-" + digits;
      assert s[0] == '-' && s[1..] == digits;
      var magnitude: int := DigitsValue(digits);
      assert ParseInt(s) == Some(-magnitude);
    } else {
      assert digits[0] != '-' && digits[0] != '+';
      assert ParseInt(digits) == Some(DigitsValue(digits));
    }
  }
}
