/** Decimal numerals, as template strings print them and as `Number` reads a string of digits. */
module Decimal {
  const DIGITS := "0123456789"

  predicate IsDigit(c: char) {
    '0' <= c <= '9'
  }

  predicate AllDigits(s: string) {
    forall c :: c in s ==> IsDigit(c)
  }

  function Print(n: nat): (s: string)
    ensures |s| > 0 && AllDigits(s)
  {
    if n < 10 then [DIGITS[n]] else Print(n / 10) + [DIGITS[n % 10]]
  }

  function Read(s: string): nat
    requires AllDigits(s)
  {
    if |s| == 0 then 0
    else
      assert AllDigits(s[..|s| - 1]) && IsDigit(s[|s| - 1]);
      Read(s[..|s| - 1]) * 10 + (s[|s| - 1] as int - '0' as int)
  }

  lemma DigitValue(d: nat)
    requires d < 10
    ensures DIGITS[d] as int - '0' as int == d
  {
  }

  lemma {:induction false} ReadPrinted(n: nat)
    ensures Read(Print(n)) == n
  {
    var s := Print(n);
    DigitValue(n % 10);
    if n < 10 {
      assert s[..0] == "";
    } else {
      ReadPrinted(n / 10);
      assert s[..|s| - 1] == Print(n / 10);
    }
  }
}
