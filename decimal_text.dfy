/**
 * Decimal text of a natural number, as a JavaScript template literal prints an
 * integer below 10^21 (larger numbers print in exponent form and are not modelled).
 */
module DecimalText {

  predicate AllDigits(s: string)
  {
    forall i :: 0 <= i < |s| ==> '0' <= s[i] <= '9'
  }

  function DigitChar(d: nat): (c: char)
    requires d < 10
    ensures '0' <= c <= '9' && c as int - '0' as int == d
  {
    ('0' as int + d) as char
  }

  /** The decimal digits of `n`, most significant first, without leading zeros. */
  function FromNat(n: nat): (s: string)
    ensures 1 <= |s| && AllDigits(s)
    ensures s[0] == '0' ==> n == 0
    decreases n
  {
    if n < 10 then [DigitChar(n)] else FromNat(n / 10) + [DigitChar(n % 10)]
  }

  /** The number a string of decimal digits denotes. */
  function ValueOf(s: string): nat
    requires AllDigits(s)
  {
    if s == [] then 0
    else ValueOf(s[..|s| - 1]) * 10 + (s[|s| - 1] as int - '0' as int)
  }

  /** Reading the printed digits back gives the number. */
  lemma {:induction false} FromNatRoundTrip(n: nat)
    ensures ValueOf(FromNat(n)) == n
    decreases n
  {
    var s := FromNat(n);
    if n >= 10 {
      FromNatRoundTrip(n / 10);
      assert s[..|s| - 1] == FromNat(n / 10);
    }
  }

  /** Distinct numbers print differently, so labels built from distinct edges differ. */
  lemma FromNatInjective(m: nat, n: nat)
    requires FromNat(m) == FromNat(n)
    ensures m == n
  {
    FromNatRoundTrip(m);
    FromNatRoundTrip(n);
  }

  /** The digits of the edges 0, 1000 and 2000. */
  lemma ThousandsDigits()
    ensures FromNat(0) == "0" && FromNat(1000) == "1000" && FromNat(2000) == "2000"
  {
    assert FromNat(1) == "1" && FromNat(10) == "10" && FromNat(100) == "100";
    assert FromNat(2) == "2" && FromNat(20) == "20" && FromNat(200) == "200";
  }
}
