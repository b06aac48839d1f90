/** Decimal text, as numbers print and parse. */
module Integers {
  predicate IsDigits(t: string) { forall i :: 0 <= i < |t| ==> '0' <= t[i] <= '9' }

  function DigitsValue(t: string): nat
    requires IsDigits(t)
  {
    if t == "" then 0 else 10 * DigitsValue(t[..|t| - 1]) + (t[|t| - 1] as int - '0' as int)
  }

  /** Digits without a leading zero. */
  predicate IsNatText(t: string) { t != "" && IsDigits(t) && (t[0] != '0' || |t| == 1) }

  function Decimal(n: nat): string {
    if n < 10 then [(n + '0' as int) as char] else Decimal(n / 10) + [(n % 10 + '0' as int) as char]
  }

  lemma {:induction false} DecimalReadsBack(n: nat)
    ensures IsNatText(Decimal(n)) && DigitsValue(Decimal(n)) == n
    ensures Decimal(n)[0] == '0' ==> n == 0
  {
    if n >= 10 {
      DecimalReadsBack(n / 10);
      var t := Decimal(n);
      assert t[..|t| - 1] == Decimal(n / 10);
    } else {
      assert Decimal(n)[..0] == "";
    }
  }
}
