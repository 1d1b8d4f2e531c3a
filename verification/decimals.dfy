/** Decimal printing and reading of natural numbers. */
module Decimals {
  import opened Text

  function Digit(d: nat): char
    requires d < 10
  {
    "0123456789"[d]
  }

  function Decimal(n: nat): (s: string)
    ensures s != "" && AllDigits(s)
    ensures n < 10 ==> |s| == 1
    ensures n < 100 ==> |s| <= 2
    ensures 0 < n ==> s[0] != '0'
  {
    if n < 10 then [Digit(n)] else Decimal(n / 10) + [Digit(n % 10)]
  }

  /** `int(s)` for a string of ASCII digits. */
  function Read(s: string): nat
    requires AllDigits(s)
  {
    if s == "" then 0
    else
      assert s[|s| - 1] in s;
      10 * Read(s[..|s| - 1]) + (s[|s| - 1] as int - '0' as int)
  }

  lemma {:induction false} ReadDecimal(n: nat)
    ensures Read(Decimal(n)) == n
  {
    if 10 <= n {
      ReadDecimal(n / 10);
      assert Decimal(n)[..|Decimal(n)| - 1] == Decimal(n / 10);
    }
  }

  /** `f"{n:03d}"`. */
  function Padded(n: nat): (s: string)
    ensures 3 <= |s| && AllDigits(s)
  {
    var s := Decimal(n);
    if |s| == 1 then "00" + s else if |s| == 2 then "0" + s else s
  }

  lemma ReadPadded(n: nat)
    ensures Read(Padded(n)) == n
  {
    ReadDecimal(n);
    var s := Decimal(n);
    if |s| == 1 {
      assert Read("00") == 0 by { assert Read("0") == 0; assert "00"[..1] == "0"; }
      assert ("00" + s)[..2] == "00";
    } else if |s| == 2 {
      assert ("0" + s)[..2] == "0" + s[..1];
      assert ("0" + s[..1])[..1] == "0";
      assert Read("0") == 0;
    }
  }

  /** The number of digits, exactly: at most `k` digits if and only if `n < 10^k`. */
  function Pow10(k: nat): nat { if k == 0 then 1 else 10 * Pow10(k - 1) }

  lemma {:induction false} DecimalLength(n: nat, k: nat)
    requires 0 < k
    ensures |Decimal(n)| <= k <==> n < Pow10(k)
  {
    if k == 1 {
      assert Pow10(1) == 10 * Pow10(0);
    } else if n < 10 {
      assert Pow10(k) >= 10 by { Pow10Positive(k - 1); }
    } else {
      DecimalLength(n / 10, k - 1);
    }
  }

  lemma {:induction false} Pow10Positive(k: nat)
    ensures 1 <= Pow10(k)
  {
    if 0 < k { Pow10Positive(k - 1); }
  }
}
