/** Canonical decimal text. BigInt is the source's only arithmetic on quantities and amounts; its text form and its value
    determine each other, which is what lets the rest of the model carry quantities as numbers. */
module Decimal {

  predicate IsDigit(c: char) {
    '0' <= c <= '9'
  }

  predicate AllDigits(s: string) {
    forall i :: 0 <= i < |s| ==> IsDigit(s[i])
  }

  /** The pattern (0|[1-9][0-9]*). */
  predicate IsNatural(s: string) {
    |s| > 0 && AllDigits(s) && (s[0] == '0' ==> |s| == 1)
  }

  /** The pattern (0|-?[1-9][0-9]*). */
  predicate IsInteger(s: string) {
    IsNatural(s) || (|s| > 1 && s[0] == '-' && IsNatural(s[1..]) && s[1] != '0')
  }

  function Value(s: string): nat
    requires AllDigits(s)
  {
    if |s| == 0 then 0 else 10 * Value(s[..|s| - 1]) + (s[|s| - 1] as int - '0' as int)
  }

  function DigitOf(d: nat): (c: char)
    requires d < 10
    ensures IsDigit(c) && c as int - '0' as int == d
  {
    ('0' as int + d) as char
  }

  function Show(n: nat): string {
    if n < 10 then [DigitOf(n)] else Show(n / 10) + [DigitOf(n % 10)]
  }

  function SignedValue(s: string): int
    requires IsInteger(s)
  {
    if s[0] == '-' then -(Value(s[1..]) as int) else Value(s)
  }

  function ShowSigned(v: int): string {
    if v < 0 then "-" + Show(-v) else Show(v)
  }

  function Pow10(k: nat): nat {
    if k == 0 then 1 else 10 * Pow10(k - 1)
  }

  lemma {:induction false} ShowReads(n: nat)
    ensures IsNatural(Show(n)) && Value(Show(n)) == n
    ensures n > 0 ==> Show(n)[0] != '0'
  {
    if n < 10 {
      assert Show(n)[..0] == "";
    } else {
      ShowReads(n / 10);
      assert Show(n)[..|Show(n)| - 1] == Show(n / 10);
    }
  }

  lemma {:induction false} PositiveValue(s: string)
    requires IsNatural(s) && s[0] != '0'
    ensures Value(s) > 0
  {
    if |s| > 1 {
      PositiveValue(s[..|s| - 1]);
    } else {
      assert Value(s[..0]) == 0;
    }
  }

  lemma {:induction false} ReadShows(s: string)
    requires IsNatural(s)
    ensures Show(Value(s)) == s
  {
    var front, last := s[..|s| - 1], s[|s| - 1];
    if |s| == 1 {
      assert Value(front) == 0;
      assert s == [last];
    } else {
      ReadShows(front);
      PositiveValue(front);
      assert s == front + [last];
    }
  }

  lemma SignedReadShows(s: string)
    requires IsInteger(s)
    ensures ShowSigned(SignedValue(s)) == s
  {
    if s[0] == '-' {
      PositiveValue(s[1..]);
      ReadShows(s[1..]);
      assert s == "-" + s[1..];
    } else {
      ReadShows(s);
    }
  }

  /** A canonical text has at most k digits exactly when its value is below 10^k. */
  lemma {:induction false} DigitCount(s: string, k: nat)
    requires IsNatural(s) && k >= 1
    ensures |s| <= k <==> Value(s) < Pow10(k)
  {
    assert Pow10(1) == 10 * Pow10(0) == 10;
    var front := s[..|s| - 1];
    if |s| == 1 {
      assert Value(front) == 0;
      Pow10Grows(k);
    } else if k == 1 {
      PositiveValue(front);
    } else {
      DigitCount(front, k - 1);
    }
  }

  lemma {:induction false} Pow10Grows(k: nat)
    requires k >= 1
    ensures Pow10(k) >= 10
  {
    if k > 1 {
      Pow10Grows(k - 1);
    } else {
      assert Pow10(0) == 1;
    }
  }

  lemma NineteenDigits()
    ensures Pow10(19) == 10_000_000_000_000_000_000
  {
    assert Pow10(4) == 10_000;
    assert Pow10(8) == 10_000 * Pow10(4);
    assert Pow10(12) == 10_000 * Pow10(8);
    assert Pow10(16) == 10_000 * Pow10(12);
    assert Pow10(19) == 1_000 * Pow10(16);
  }
}
