/**
 * Decimal digit strings: what `str(n)` and `f"{n:02}"` write for a non-negative
 * int, and what `int(s)` reads back from a string of ASCII digits.
 */
module Decimal {

  predicate IsDigit(c: char) {
    '0' <= c <= '9'
  }

  predicate AllDigits(s: string) {
    forall i :: 0 <= i < |s| ==> IsDigit(s[i])
  }

  /** A string that `int()` accepts in the form modelled here: one or more digits. */
  predicate IsNumeral(s: string) {
    |s| > 0 && AllDigits(s)
  }

  function DigitChar(d: int): (c: char)
    requires 0 <= d < 10
    ensures IsDigit(c)
  {
    ('0' as int + d) as char
  }

  /** The number a string of digits denotes; leading zeros add nothing. */
  function Value(s: string): nat
    requires AllDigits(s)
  {
    if s == [] then 0 else 10 * Value(s[..|s| - 1]) + (s[|s| - 1] as int - '0' as int)
  }

  /** `str(n)`: the digits of n, without leading zeros. */
  function Show(n: nat): (s: string)
    ensures IsNumeral(s)
    ensures |s| > 1 ==> s[0] != '0'
    ensures n < 10 <==> |s| == 1
  {
    if n < 10 then [DigitChar(n)] else Show(n / 10) + [DigitChar(n % 10)]
  }

  lemma {:induction false} ValueOfShow(n: nat)
    ensures Value(Show(n)) == n
  {
    if n >= 10 {
      var s := Show(n);
      assert s[..|s| - 1] == Show(n / 10);
      ValueOfShow(n / 10);
    }
  }

  function Zeros(k: nat): (z: string)
    ensures |z| == k && AllDigits(z)
  {
    if k == 0 then [] else ['0'] + Zeros(k - 1)
  }

  lemma {:induction false} ValueOfZeros(k: nat)
    ensures Value(Zeros(k)) == 0
  {
    if k > 0 {
      assert Zeros(k)[..k - 1] == Zeros(k - 1) by {
        if k > 1 { ZerosSplit(k - 1); }
      }
      ValueOfZeros(k - 1);
    }
  }

  lemma {:induction false} ZerosSplit(k: nat)
    ensures Zeros(k + 1) == Zeros(k) + ['0']
  {
    if k > 0 {
      ZerosSplit(k - 1);
    }
  }

  /** Zeros in front of a string of digits leave its value unchanged. */
  lemma {:induction false} ValueOfZeroPadded(k: nat, s: string)
    requires AllDigits(s)
    ensures AllDigits(Zeros(k) + s)
    ensures Value(Zeros(k) + s) == Value(s)
    decreases |s|
  {
    var t := Zeros(k) + s;
    if s == [] {
      assert t == Zeros(k);
      ValueOfZeros(k);
    } else {
      assert t[..|t| - 1] == Zeros(k) + s[..|s| - 1];
      ValueOfZeroPadded(k, s[..|s| - 1]);
    }
  }

  /** `f"{n:0w}"` for a non-negative int n: its digits, zero-filled on the left to width w. */
  function ZeroFill(n: nat, width: nat): (s: string)
    ensures IsNumeral(s) && Value(s) == n
    ensures |s| == if |Show(n)| < width then width else |Show(n)|
    ensures |Show(n)| >= width ==> s == Show(n)
  {
    var digits := Show(n);
    ValueOfShow(n);
    var padded := if |digits| < width then Zeros(width - |digits|) + digits else digits;
    ValueOfZeroPadded(if |digits| < width then width - |digits| else 0, digits);
    assert |digits| >= width ==> padded == Zeros(0) + digits;
    padded
  }
}
