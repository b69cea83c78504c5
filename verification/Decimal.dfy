/** Decimal numerals: printed as std::to_string prints them, read as std::from_chars reads them. */
module Decimal {

  predicate IsDigit(c: char) {
    '0' <= c <= '9'
  }

  predicate AllDigits(s: string) {
    forall k | 0 <= k < |s| :: IsDigit(s[k])
  }

  function DigitChar(d: nat): (c: char)
    requires d < 10
    ensures c == "0123456789"[d]
  {
    '0' + d as char
  }

  function DigitValue(c: char): (d: nat)
    requires IsDigit(c)
    ensures d < 10 && c == "0123456789"[d]
  {
    c as int - '0' as int
  }

  /** std::to_string of an unsigned number. */
  function Dec(n: nat): string {
    if n < 10 then [DigitChar(n)] else Dec(n / 10) + [DigitChar(n % 10)]
  }

  /** std::to_string of a signed 64-bit number; the handler makes every uid with it. */
  function SignedDec(x: int): string {
    if x < 0 then "-" + Dec(-x) else Dec(x)
  }

  /** The number that a string of digits denotes, leading zeros allowed. */
  function Number(s: string): nat
    requires AllDigits(s)
  {
    if s == [] then 0 else 10 * Number(s[..|s| - 1]) + DigitValue(s[|s| - 1])
  }

  /** n with its j lowest decimal digits dropped: n / 10^j. */
  function Shorten(n: nat, j: nat): nat {
    if j == 0 then n else Shorten(n / 10, j - 1)
  }

  lemma {:induction false} DecReadsBack(n: nat)
    ensures |Dec(n)| >= 1 && AllDigits(Dec(n))
    ensures Number(Dec(n)) == n
    ensures n > 0 ==> Dec(n)[0] != '0'
  {
    if n < 10 {
      assert Dec(n)[..0] == [];
    } else {
      DecReadsBack(n / 10);
      assert Dec(n)[..|Dec(n)| - 1] == Dec(n / 10);
    }
  }

  lemma DecInjective(m: nat, n: nat)
    requires Dec(m) == Dec(n)
    ensures m == n
  {
    DecReadsBack(m);
    DecReadsBack(n);
  }

  lemma SignedDecInjective(x: int, y: int)
    requires SignedDec(x) == SignedDec(y)
    ensures x == y
  {
    var m, n := if x < 0 then -x else x, if y < 0 then -y else y;
    DecReadsBack(m);
    DecReadsBack(n);
    assert x < 0 ==> SignedDec(x)[0] == '-' && SignedDec(x)[1..] == Dec(m);
    assert y < 0 ==> SignedDec(y)[0] == '-' && SignedDec(y)[1..] == Dec(n);
    assert IsDigit(Dec(m)[0]) && IsDigit(Dec(n)[0]);
  }

  lemma {:induction false} ShortenPositive(n: nat, j: nat)
    requires j < |Dec(n)| && n > 0
    ensures 1 <= Shorten(n, j) <= n
    decreases j
  {
    if j > 0 {
      assert n >= 10;
      ShortenPositive(n / 10, j - 1);
    }
  }

  /** A non-empty prefix of a numeral is the numeral of the shortened number. */
  lemma {:induction false} DecPrefix(n: nat, k: nat)
    requires 0 < k <= |Dec(n)|
    ensures Dec(n)[..k] == Dec(Shorten(n, |Dec(n)| - k))
    decreases n
  {
    if k == |Dec(n)| {
      assert Dec(n)[..k] == Dec(n);
    } else {
      assert n >= 10;
      assert Dec(n)[..k] == Dec(n / 10)[..k];
      DecPrefix(n / 10, k);
    }
  }
}
