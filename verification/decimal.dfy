/**
 * Swift's failable `UInt(_: String)` initialiser (radix 10, 64-bit), which the
 * request path uses to read merchant capabilities, together with the decimal
 * rendering it inverts.
 */
module Decimal {
  import opened Wrappers

  /** The largest value of Swift's 64-bit `UInt`. */
  const UIntMax: nat := 0xFFFF_FFFF_FFFF_FFFF

  predicate IsDigit(c: char) {
    '0' <= c <= '9'
  }

  predicate AllDigits(s: string) {
    forall i :: 0 <= i < |s| ==> IsDigit(s[i])
  }

  function DigitValue(c: char): nat
    requires IsDigit(c)
  {
    c as int - '0' as int
  }

  function DigitChar(d: nat): (c: char)
    requires d < 10
    ensures IsDigit(c) && DigitValue(c) == d
  {
    ('0' as int + d) as char
  }

  /** The value of a digit string read most-significant digit first. */
  function DigitsValue(s: string): nat
    requires AllDigits(s)
    decreases |s|
  {
    if |s| == 0 then 0 else 10 * DigitsValue(s[..|s| - 1]) + DigitValue(s[|s| - 1])
  }

  /** One or more digits whose value fits in a `UInt`. */
  function ParseMagnitude(s: string): (r: Option<nat>)
    ensures r.Some? <==> |s| > 0 && AllDigits(s) && DigitsValue(s) <= UIntMax
    ensures r.Some? ==> r.value == DigitsValue(s)
  {
    if |s| > 0 && AllDigits(s) && DigitsValue(s) <= UIntMax then Some(DigitsValue(s)) else None
  }

  /**
   * `UInt(s)`: an optional sign followed by one or more decimal digits and
   * nothing else. A minus sign is accepted only when the magnitude is zero,
   * because any other negative value does not fit in an unsigned integer.
   */
  function ParseUInt(s: string): (r: Option<nat>)
    ensures r.Some? ==> r.value <= UIntMax
    ensures |s| > 0 && AllDigits(s) ==> (r.Some? <==> DigitsValue(s) <= UIntMax)
    ensures |s| > 0 && AllDigits(s) && r.Some? ==> r.value == DigitsValue(s)
    ensures |s| == 0 ==> r.None?
    ensures r.Some? && |s| > 0 && s[0] == '-' ==> r.value == 0
  {
    if |s| > 0 && s[0] == '+' then ParseMagnitude(s[1..])
    else if |s| > 0 && s[0] == '-' then
      match ParseMagnitude(s[1..])
      case Some(0) => Some(0)
      case _ => None
    else ParseMagnitude(s)
  }

  /** The shortest decimal spelling of `n`. */
  function Render(n: nat): (r: string)
    ensures |r| > 0 && AllDigits(r)
    decreases n
  {
    if n < 10 then [DigitChar(n)] else Render(n / 10) + [DigitChar(n % 10)]
  }

  lemma {:induction false} DigitsValueOfRender(n: nat)
    ensures DigitsValue(Render(n)) == n
    decreases n
  {
    if n >= 10 {
      DigitsValueOfRender(n / 10);
      var r := Render(n);
      assert r[..|r| - 1] == Render(n / 10);
    }
  }

  /** Every value of a `UInt` survives rendering and parsing back. */
  lemma ParseRender(n: nat)
    requires n <= UIntMax
    ensures ParseUInt(Render(n)) == Some(n)
  {
    DigitsValueOfRender(n);
  }

  /** A string containing a character that is neither a digit nor a leading sign does not parse. */
  lemma NonNumericDoesNotParse(s: string, k: nat)
    requires k < |s| && !IsDigit(s[k])
    requires k == 0 ==> s[0] != '+' && s[0] != '-'
    ensures ParseUInt(s) == None
  {
  }

  /** A decimal spelling of a value beyond 64 bits does not parse: there is no wrap-around. */
  lemma OverflowDoesNotParse(n: nat)
    requires n > UIntMax
    ensures ParseUInt(Render(n)) == None
  {
    DigitsValueOfRender(n);
  }

  /**
   * A leading plus sign is accepted and changes nothing; a leading minus sign
   * is accepted only in front of zero.
   */
  lemma SignedParse(n: nat)
    requires n <= UIntMax
    ensures ParseUInt("+" + Render(n)) == Some(n)
    ensures ParseUInt("-" + Render(n)) == (if n == 0 then Some(0) else None)
  {
    DigitsValueOfRender(n);
    assert ("+" + Render(n))[1..] == Render(n);
    assert ("-" + Render(n))[1..] == Render(n);
  }

  function Zeros(z: nat): (r: string)
    ensures |r| == z && AllDigits(r)
  {
    seq(z, _ => '0')
  }

  /** Leading zeros do not change the value of a digit string. */
  lemma {:induction false} DigitsValueZeroPadded(z: nat, s: string)
    requires AllDigits(s)
    ensures AllDigits(Zeros(z) + s) && DigitsValue(Zeros(z) + s) == DigitsValue(s)
    decreases |s|
  {
    var t := Zeros(z) + s;
    assert AllDigits(t) by {
      forall i | 0 <= i < |t| ensures IsDigit(t[i]) {
        if i >= z {
          assert t[i] == s[i - z];
        }
      }
    }
    if |s| == 0 {
      assert t == Zeros(z);
      ZerosValue(z);
    } else {
      var init := s[..|s| - 1];
      DigitsValueZeroPadded(z, init);
      assert t[..|t| - 1] == Zeros(z) + init;
      assert t[|t| - 1] == s[|s| - 1];
    }
  }

  lemma {:induction false} ZerosValue(z: nat)
    ensures DigitsValue(Zeros(z)) == 0
    decreases z
  {
    if z > 0 {
      ZerosValue(z - 1);
      assert Zeros(z)[..z - 1] == Zeros(z - 1);
    }
  }

  /** A zero-padded spelling parses to the same value as the shortest one. */
  lemma ZeroPaddedParse(z: nat, n: nat)
    ensures ParseUInt(Zeros(z) + Render(n)) == (if n <= UIntMax then Some(n) else None)
  {
    DigitsValueOfRender(n);
    DigitsValueZeroPadded(z, Render(n));
  }
}
