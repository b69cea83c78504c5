/** What the upload handler reads from a request: block counts, block numbers, video ids. */
module UploadRequests {
  import opened Decimal
  import opened Names

  const SIZE_LIMIT: nat := 0x1_0000_0000_0000_0000

  function LeadingDigits(s: string): (d: string)
    ensures d <= s && AllDigits(d)
    ensures |d| < |s| ==> !IsDigit(s[|d|])
  {
    if s == [] || !IsDigit(s[0]) then [] else [s[0]] + LeadingDigits(s[1..])
  }

  /** std::from_chars into a std::size_t that starts as 0: the longest run of leading digits ([charconv.from.chars]
      of ISO/IEC 14882); without digits, or out of range, the value stays 0. */
  function StrToSizeT(arg: string): nat {
    var d := LeadingDigits(arg);
    if d == [] || Number(d) >= SIZE_LIMIT then 0 else Number(d)
  }

  datatype Chunk = Refused | Admitted(total: nat, number: nat)

  /** The guard of the handler on the two numbers of a request. */
  function Admit(totalArg: string, numberArg: string): Chunk {
    if StrToSizeT(totalArg) == 0 || StrToSizeT(numberArg) == 0 then Refused
    else Admitted(StrToSizeT(totalArg), StrToSizeT(numberArg))
  }

  function Repeat(c: char, z: nat): string {
    if z == 0 then [] else [c] + Repeat(c, z - 1)
  }

  /** arg is the numeral of n, perhaps after zeros, perhaps followed by something that is not a digit. */
  ghost predicate Spells(arg: string, n: nat) {
    exists z: nat, rest: string ::
      arg == Repeat('0', z) + Dec(n) + rest && (rest == [] || !IsDigit(rest[0]))
  }

  lemma {:induction false} LeadingDigitsOf(d: string, rest: string)
    requires AllDigits(d) && (rest == [] || !IsDigit(rest[0]))
    ensures LeadingDigits(d + rest) == d
  {
    if d == [] {
      assert d + rest == rest;
    } else {
      LeadingDigitsOf(d[1..], rest);
      assert (d + rest)[1..] == d[1..] + rest;
    }
  }

  lemma {:induction false} ZerosCountNothing(z: nat, d: string)
    requires AllDigits(d)
    ensures AllDigits(Repeat('0', z) + d) && Number(Repeat('0', z) + d) == Number(d)
    decreases z + |d|
  {
    var s := Repeat('0', z) + d;
    if d != [] {
      var e := d[..|d| - 1];
      ZerosCountNothing(z, e);
      assert s == Repeat('0', z) + e + [d[|d| - 1]];
      assert s[..|s| - 1] == Repeat('0', z) + e;
    } else if z > 0 {
      RepeatEnd('0', z);
      ZerosCountNothing(z - 1, []);
      assert s == Repeat('0', z - 1) + [] + ['0'];
      assert s[..|s| - 1] == Repeat('0', z - 1) + [];
    }
  }

  lemma {:induction false} RepeatEnd(c: char, z: nat)
    requires z > 0
    ensures Repeat(c, z) == Repeat(c, z - 1) + [c]
  {
    if z > 1 {
      RepeatEnd(c, z - 1);
    }
  }

  /** A string of digits that denotes n > 0 is the numeral of n after some zeros; one that denotes 0 is zeros. */
  lemma {:induction false} DigitsAreNumeral(d: string) returns (z: nat)
    requires AllDigits(d)
    ensures d == Repeat('0', z) + if Number(d) == 0 then [] else Dec(Number(d))
  {
    if d == [] {
      z := 0;
    } else {
      var e, c := d[..|d| - 1], d[|d| - 1];
      z := DigitsAreNumeral(e);
      var n := Number(d);
      assert d == e + [c];
      if Number(e) == 0 {
        assert Repeat('0', z) + [] == Repeat('0', z);
        if n == 0 {
          z := z + 1;
          RepeatEnd('0', z);
        } else {
          assert Dec(n) == [c];
        }
      } else {
        assert n / 10 == Number(e) && n % 10 == DigitValue(c);
        assert Dec(n) == Dec(Number(e)) + [c];
        assert d == Repeat('0', z) + (Dec(Number(e)) + [c]);
      }
    }
  }

  /** Parsing undoes printing, whatever follows the number. */
  lemma ParsePrint(n: nat, rest: string)
    requires n < 0x1_0000_0000_0000_0000 && (rest == [] || !IsDigit(rest[0]))
    ensures StrToSizeT(Dec(n) + rest) == n
  {
    DecReadsBack(n);
    LeadingDigitsOf(Dec(n), rest);
  }

  /** The handler reads n > 0 exactly from the strings that spell n, and only below 2^64; everything else,
      in particular a sign, a leading blank, or a number out of range, reads as 0. */
  lemma ReadsIff(arg: string, n: nat)
    requires n > 0
    ensures StrToSizeT(arg) == n <==> n < 0x1_0000_0000_0000_0000 && Spells(arg, n)
  {
    var d := LeadingDigits(arg);
    if StrToSizeT(arg) == n {
      var z := DigitsAreNumeral(d);
      assert arg == Repeat('0', z) + Dec(n) + arg[|d|..];
    }
    if n < SIZE_LIMIT && Spells(arg, n) {
      var z: nat, rest: string :| arg == Repeat('0', z) + Dec(n) + rest && (rest == [] || !IsDigit(rest[0]));
      DecReadsBack(n);
      ZerosCountNothing(z, Dec(n));
      LeadingDigitsOf(Repeat('0', z) + Dec(n), rest);
    }
  }

  /** A request passes the guard exactly when both numbers are spelled out, positive and below 2^64. */
  lemma AdmitsIff(totalArg: string, numberArg: string, total: nat, number: nat)
    ensures Admit(totalArg, numberArg) == Admitted(total, number) <==>
            && 0 < total < 0x1_0000_0000_0000_0000 && 0 < number < 0x1_0000_0000_0000_0000
            && Spells(totalArg, total) && Spells(numberArg, number)
  {
    if total > 0 {
      ReadsIff(totalArg, total);
    }
    if number > 0 {
      ReadsIff(numberArg, number);
    }
  }

  /** The digits of d written after those of m. */
  function AppendDigits(m: nat, d: nat): nat {
    if d < 10 then 10 * m + d else 10 * AppendDigits(m, d / 10) + d % 10
  }

  lemma {:induction false} DecAppend(m: nat, d: nat)
    requires m > 0
    ensures AppendDigits(m, d) > 0 && Dec(AppendDigits(m, d)) == Dec(m) + Dec(d)
  {
    DecParts(d);
    hide Dec, DigitChar;
    if d < 10 {
      DecDigit(m, d);
    } else {
      var q, c := d / 10, d % 10;
      DecAppend(m, q);
      var e := AppendDigits(m, q);
      DecDigit(e, c);
      assert AppendDigits(m, d) == 10 * e + c;
      assert Dec(m) + (Dec(q) + [DigitChar(c)]) == (Dec(m) + Dec(q)) + [DigitChar(c)];
    }
  }

  lemma DecParts(d: nat)
    ensures Dec(d) == (if d < 10 then [] else Dec(d / 10)) + [DigitChar(d % 10)]
  {
    assert d < 10 ==> [] + [DigitChar(d)] == [DigitChar(d)];
  }

  /** One digit more. */
  lemma DecDigit(q: nat, c: nat)
    requires q > 0 && c < 10
    ensures Dec(10 * q + c) == Dec(q) + [DigitChar(c)]
  {
    assert (10 * q + c) / 10 == q && (10 * q + c) % 10 == c;
  }

  function Abs(x: int): nat {
    if x < 0 then -x else x
  }

  /** Video id b reads as video id a followed by a block number of a. */
  ghost predicate Continues(b: int, a: int, n: nat) {
    && a != 0 && (a < 0 <==> b < 0)
    && exists d: nat :: 1 <= d <= n && Abs(b) == AppendDigits(Abs(a), d)
  }

  lemma SignedDecParts(x: int)
    ensures SignedDec(x) == (if x < 0 then "-" else "") + Dec(Abs(x))
    ensures |SignedDec(x)| > 0 && (SignedDec(x)[0] == '-' <==> x < 0)
  {
    DecReadsBack(Abs(x));
    assert IsDigit(Dec(Abs(x))[0]);
  }

  lemma BlockOfIdContinues(a: int, b: int, d: nat)
    requires d >= 1 && SignedDec(b) == BlockName(SignedDec(a), d)
    ensures a != 0 && (a < 0 <==> b < 0) && Abs(b) == AppendDigits(Abs(a), d)
  {
    SignedDecParts(a);
    SignedDecParts(b);
    var sign := if a < 0 then "-" else "";
    assert SignedDec(b)[0] == SignedDec(a)[0];
    assert sign + Dec(Abs(b)) == sign + (Dec(Abs(a)) + Dec(d));
    assert (sign + Dec(Abs(b)))[|sign|..] == Dec(Abs(b));
    assert (sign + (Dec(Abs(a)) + Dec(d)))[|sign|..] == Dec(Abs(a)) + Dec(d);
    DecReadsBack(Abs(b));
    DecReadsBack(d);
    if a != 0 {
      DecAppend(Abs(a), d);
      DecInjective(Abs(b), AppendDigits(Abs(a), d));
    }
  }

  lemma ContinuesIsBlock(a: int, b: int, d: nat)
    requires a != 0 && (a < 0 <==> b < 0) && Abs(b) == AppendDigits(Abs(a), d)
    ensures SignedDec(b) == BlockName(SignedDec(a), d)
  {
    DecAppend(Abs(a), d);
  }

  lemma BlockOfIdIff(a: int, b: int, n: nat)
    ensures IsBlockOf(SignedDec(b), SignedDec(a), n) <==> Continues(b, a, n)
  {
    if Continues(b, a, n) {
      var d: nat :| 1 <= d <= n && Abs(b) == AppendDigits(Abs(a), d);
      ContinuesIsBlock(a, b, d);
    }
    if IsBlockOf(SignedDec(b), SignedDec(a), n) {
      var d: nat :| 1 <= d <= n && SignedDec(b) == BlockName(SignedDec(a), d);
      BlockOfIdContinues(a, b, d);
    }
  }

  /** Sessions of different videos can touch the same file exactly when one id continues the other. */
  lemma VideoIdsOverlapIff(a: int, na: nat, b: int, nb: nat)
    requires a != b
    ensures Overlap(SignedDec(a), na, SignedDec(b), nb) <==> Continues(b, a, na) || Continues(a, b, nb)
  {
    if SignedDec(a) == SignedDec(b) {
      SignedDecInjective(a, b);
    }
    OverlapIff(SignedDec(a), na, SignedDec(b), nb);
    BlockOfIdIff(a, b, na);
    BlockOfIdIff(b, a, nb);
  }
}
