/**
 * The two string formats the profile scripts use on integers: Python's
 * "%d" (decimal rendering) and "%02d" (decimal rendering, left-padded with
 * zeros to at least two characters, never truncated).
 *
 * Decimal strings are given a reference reading, ValueOf, and both formats
 * are proved to round-trip through it; injectivity of "%02d", on which the
 * distinctness of every generated node name rests, follows from that.
 */
module Format {

  predicate IsDigit(c: char) {
    '0' <= c <= '9'
  }

  predicate AllDigits(s: string) {
    forall k :: 0 <= k < |s| ==> IsDigit(s[k])
  }

  function DigitValue(c: char): (d: nat)
    requires IsDigit(c)
    ensures d < 10
  {
    c as int - '0' as int
  }

  function DigitChar(d: nat): (c: char)
    requires d < 10
    ensures IsDigit(c) && DigitValue(c) == d
  {
    (d + '0' as int) as char
  }

  /** The numeric value of a digit string, most significant digit first. */
  function ValueOf(s: string): nat
    requires AllDigits(s)
    decreases |s|
  {
    if s == [] then 0 else ValueOf(s[..|s| - 1]) * 10 + DigitValue(s[|s| - 1])
  }

  /**
   * Python's "%d" on a non-negative integer: shortest decimal rendering, so
   * it starts with a zero only when it is "0" itself.
   */
  function Decimal(n: nat): (s: string)
    ensures 1 <= |s| && AllDigits(s)
    ensures n < 10 <==> |s| == 1
    ensures s[0] == '0' <==> n == 0
    decreases n
  {
    if n < 10 then [DigitChar(n)] else Decimal(n / 10) + [DigitChar(n % 10)]
  }

  /** Python's "%d" on any integer: a minus sign, then the decimal digits. */
  function FormatInt(n: int): (s: string)
    ensures n >= 0 ==> |s| >= 1 && AllDigits(s) && ValueOf(s) == n
    ensures n < 0 ==> |s| >= 2 && s[0] == '-' && AllDigits(s[1..]) && ValueOf(s[1..]) == -n
    ensures n == 0 ==> s == "0"
    ensures n > 0 ==> s[0] != '0'
    ensures n < 0 ==> s[1] != '0'
  {
    DecimalRoundTrip(if n < 0 then -n else n);
    if n < 0 then
      assert ("-" + Decimal(-n))[1..] == Decimal(-n);
      "-" + Decimal(-n)
    else
      Decimal(n)
  }

  function Zeros(k: nat): string {
    seq(k, _ => '0')
  }

  /** The zero flag with a minimum field width: pad on the left, never cut. */
  function ZeroPad(s: string, width: nat): string {
    if |s| < width then Zeros(width - |s|) + s else s
  }

  /** Python's "%02d" on a non-negative integer. */
  function Pad2(n: nat): (r: string)
    ensures AllDigits(r) && |r| >= 2
  {
    var s := Decimal(n);
    var r := ZeroPad(s, 2);
    assert AllDigits(r) by {
      if |s| < 2 { LeadingZerosValue(2 - |s|, s); }
    }
    r
  }

  /**
   * "%02d" is the decimal rendering when that has two digits or more, and a
   * zero followed by the one digit otherwise: it pads, and never truncates.
   */
  lemma Pad2Shape(n: nat)
    ensures n < 10 ==> Pad2(n) == ['0', DigitChar(n)]
    ensures n >= 10 ==> Pad2(n) == Decimal(n)
  {
  }

  /** Reading back the shortest rendering gives the number. */
  lemma {:induction false} DecimalRoundTrip(n: nat)
    ensures ValueOf(Decimal(n)) == n
    decreases n
  {
    if n >= 10 {
      DecimalRoundTrip(n / 10);
      var s := Decimal(n);
      assert s[..|s| - 1] == Decimal(n / 10);
    }
  }

  lemma {:induction false} ZerosValue(k: nat)
    ensures AllDigits(Zeros(k)) && ValueOf(Zeros(k)) == 0
  {
    assert |Zeros(k)| == k;
    if k > 0 {
      ZerosValue(k - 1);
      assert Zeros(k)[..k - 1] == Zeros(k - 1);
    }
  }

  /** Leading zeros do not change the value of a digit string. */
  lemma {:induction false} LeadingZerosValue(k: nat, s: string)
    requires AllDigits(s)
    ensures AllDigits(Zeros(k) + s) && ValueOf(Zeros(k) + s) == ValueOf(s)
    decreases |s|
  {
    var t := Zeros(k) + s;
    assert AllDigits(t) by {
      forall i | 0 <= i < |t| ensures IsDigit(t[i]) {
        if i >= k { assert t[i] == s[i - k]; }
      }
    }
    if s == [] {
      ZerosValue(k);
      assert t == Zeros(k);
    } else {
      var init := s[..|s| - 1];
      LeadingZerosValue(k, init);
      assert t[..|t| - 1] == Zeros(k) + init;
    }
  }

  /** "%02d" round-trips through ValueOf: padding loses no information. */
  lemma Pad2RoundTrip(n: nat)
    ensures ValueOf(Pad2(n)) == n
  {
    DecimalRoundTrip(n);
    if n < 10 {
      LeadingZerosValue(1, Decimal(n));
      assert Pad2(n) == Zeros(1) + Decimal(n);
    }
  }

  /** Distinct numbers get distinct "%02d" renderings. */
  lemma Pad2Injective(a: nat, b: nat)
    ensures Pad2(a) == Pad2(b) ==> a == b
  {
    Pad2RoundTrip(a);
    Pad2RoundTrip(b);
  }

  lemma Pad2Examples()
    ensures Pad2(1) == "01" && Pad2(9) == "09" && Pad2(10) == "10" && Pad2(100) == "100"
  {
  }
}
