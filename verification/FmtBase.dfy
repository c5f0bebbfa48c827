/** `parse_nonnegative_int` of thirdparty/fmt/include/fmt/base.h: a digit loop on a 32-bit unsigned
    accumulator that may wrap around, with the overflow test made afterwards. */
module FmtBase {

  const INT_MAX := 0x7FFF_FFFF
  const TWO_32 := 0x1_0000_0000
  /** `sizeof(int) * CHAR_BIT * 3 / 10`, the digits an `int` always has room for. */
  const DIGITS10 := 4 * 8 * 3 / 10

  /** Unsigned 32-bit arithmetic. */
  function U32(x: nat): (r: nat)
    ensures r < TWO_32
  {
    x % TWO_32
  }

  predicate IsDigit(c: char) {
    '0' <= c <= '9'
  }

  function Digit(c: char): (d: nat)
    requires IsDigit(c)
    ensures d <= 9
  {
    c as int - '0' as int
  }

  predicate AllDigits(s: string) {
    forall i :: 0 <= i < |s| ==> IsDigit(s[i])
  }

  /** The number a digit string denotes. */
  function Value(s: string): nat
    requires AllDigits(s)
  {
    if s == [] then 0 else 10 * Value(s[..|s| - 1]) + Digit(s[|s| - 1])
  }

  function Pow10(n: nat): (p: nat)
    ensures p >= 1
  {
    if n == 0 then 1 else 10 * Pow10(n - 1)
  }

  /** Length of the longest digit prefix. */
  function DigitRun(s: string): (n: nat)
    ensures n <= |s| && AllDigits(s[..n])
    ensures n < |s| ==> !IsDigit(s[n])
  {
    if s == [] || !IsDigit(s[0]) then 0
    else
      assert forall i :: 0 < i < 1 + DigitRun(s[1..]) ==> s[i] == s[1..][i - 1];
      1 + DigitRun(s[1..])
  }

  lemma {:induction false} ValueBelow(s: string)
    requires AllDigits(s)
    ensures Value(s) < Pow10(|s|)
  {
    if s != [] {
      ValueBelow(s[..|s| - 1]);
    }
  }

  /** Without a leading zero the length gives a lower bound as well. */
  lemma {:induction false} ValueAtLeast(s: string)
    requires AllDigits(s) && s != [] && s[0] != '0'
    ensures Value(s) >= Pow10(|s| - 1)
  {
    if |s| > 1 {
      ValueAtLeast(s[..|s| - 1]);
    }
  }

  lemma {:induction false} Pow10Grows(m: nat, n: nat)
    requires m <= n
    ensures Pow10(m) <= Pow10(n)
  {
    if m < n {
      Pow10Grows(m, n - 1);
    }
  }

  lemma Pow10Values()
    ensures Pow10(9) == 1_000_000_000 && Pow10(10) == 10_000_000_000
  {
    assert Pow10(3) == 1000;
    assert Pow10(6) == 1000 * Pow10(3);
    assert Pow10(9) == 1000 * Pow10(6);
  }

  /** The parse takes the longest run of digits.  It returns its exact value when that run has at most
      ten digits and fits an `int`, however the accumulator wrapped, and the error value otherwise. */
  method ParseNonnegativeInt(s: string, errorValue: int) returns (result: int, rest: string)
    requires s != [] && IsDigit(s[0])
    ensures rest == s[DigitRun(s)..]
    ensures result == Parsed(s[..DigitRun(s)], errorValue)
  {
    var value, prev := 0, 0;
    var p := 0;
    while true
      invariant p < |s| && IsDigit(s[p]) && AllDigits(s[..p])
      invariant value == U32(Value(s[..p]))
      decreases |s| - p
    {
      prev := value;
      value := U32(value * 10 + Digit(s[p]));
      NextDigit(s, p);
      p := p + 1;
      if !(p != |s| && IsDigit(s[p])) {
        break;
      }
    }
    RunIs(s, p);
    rest := s[p..];
    ghost var digits := s[..p];
    assert digits[..|digits| - 1] == s[..p - 1];
    TenDigitTest(digits, value, prev);
    if p <= DIGITS10 {
      return value, rest;
    }
    if p == DIGITS10 + 1 && prev * 10 + Digit(s[p - 1]) <= INT_MAX {
      result := value;
    } else {
      result := errorValue;
    }
  }

  lemma NextDigit(s: string, p: nat)
    requires p < |s| && AllDigits(s[..p]) && IsDigit(s[p])
    ensures AllDigits(s[..p + 1])
    ensures U32(Value(s[..p + 1])) == U32(U32(Value(s[..p])) * 10 + Digit(s[p]))
  {
    assert s[..p + 1][..p] == s[..p];
    WrapStep(Value(s[..p]), Digit(s[p]));
  }

  /** Up to nine digits never wrap; with ten the accumulator before the last digit has not wrapped. */
  lemma TenDigitTest(digits: string, value: nat, prev: nat)
    requires AllDigits(digits) && digits != []
    requires value == U32(Value(digits)) && prev == U32(Value(digits[..|digits| - 1]))
    ensures |digits| <= DIGITS10 ==> Value(digits) <= INT_MAX && value == Value(digits)
    ensures |digits| == DIGITS10 + 1 ==> prev * 10 + Digit(digits[|digits| - 1]) == Value(digits)
    ensures Value(digits) <= INT_MAX ==> value == Value(digits)
  {
    NineDigitsFit(digits);
    NineDigitsFit(digits[..|digits| - 1]);
    Unwrapped(Value(digits));
    Unwrapped(Value(digits[..|digits| - 1]));
  }

  lemma NineDigitsFit(digits: string)
    requires AllDigits(digits)
    ensures |digits| <= DIGITS10 ==> Value(digits) <= INT_MAX
  {
    if |digits| <= DIGITS10 {
      ValueBelow(digits);
      Pow10Grows(|digits|, 9);
      Pow10Values();
    }
  }

  lemma Unwrapped(x: nat)
    ensures x <= INT_MAX ==> U32(x) == x
  {
  }

  lemma WrapStep(v: nat, d: nat)
    ensures U32(U32(v) * 10 + d) == U32(v * 10 + d)
  {
    var q := v / TWO_32;
    assert v * 10 + d == (v % TWO_32) * 10 + d + TWO_32 * (q * 10);
  }

  lemma {:induction false} RunIs(s: string, n: nat)
    requires n <= |s| && AllDigits(s[..n]) && (n < |s| ==> !IsDigit(s[n]))
    ensures DigitRun(s) == n
  {
    if n > 0 {
      assert s[0] == s[..n][0];
      assert s[1..][..n - 1] == s[..n][1..];
      RunIs(s[1..], n - 1);
    }
  }

  /** The answer to a whole digit run: `ParseNonnegativeInt` says so. */
  function Parsed(digits: string, errorValue: int): int
    requires AllDigits(digits)
  {
    if |digits| <= 10 && Value(digits) <= INT_MAX then Value(digits) else errorValue
  }

  /** What a caller expects: a value that fits an `int` is returned, any other is reported. */
  ghost predicate HandledRight(digits: string)
    requires AllDigits(digits)
  {
    forall e :: Parsed(digits, e) == if Value(digits) <= INT_MAX then Value(digits) else e
  }

  /** The answer is as expected exactly when the run has at most ten digits or does not fit. */
  lemma RightExactlyWhen(digits: string)
    requires AllDigits(digits)
    ensures HandledRight(digits) <==> |digits| <= 10 || Value(digits) > INT_MAX
  {
    if |digits| > 10 && Value(digits) <= INT_MAX {
      assert Parsed(digits, -1) == -1;
    }
  }

  /** Without a leading zero that is always so, whatever the length. */
  lemma RightWithoutLeadingZero(digits: string)
    requires AllDigits(digits) && digits != [] && (digits[0] != '0' || |digits| == 1)
    ensures HandledRight(digits)
  {
    RightExactlyWhen(digits);
    if |digits| > 10 {
      ValueAtLeast(digits);
      Pow10Grows(10, |digits| - 1);
      Pow10Values();
    }
  }

  /** Zeros in front do not change the number, but they use up digits. */
  lemma {:induction false} LeadingZeros(k: nat, s: string)
    requires AllDigits(s)
    ensures var padded := seq(k, i => '0') + s; AllDigits(padded) && Value(padded) == Value(s)
  {
    var zeros := seq(k, i => '0');
    if s == [] {
      assert zeros + s == zeros;
      ZerosAreZero(k);
    } else {
      LeadingZeros(k, s[..|s| - 1]);
      assert (zeros + s)[..|zeros + s| - 1] == zeros + s[..|s| - 1];
    }
  }

  lemma {:induction false} ZerosAreZero(k: nat)
    ensures AllDigits(seq(k, i => '0')) && Value(seq(k, i => '0')) == 0
  {
    if k > 0 {
      ZerosAreZero(k - 1);
      assert seq(k, i => '0')[..k - 1] == seq(k - 1, i => '0');
    }
  }

  /** The exact failing family: a number that fits, written with `k` zeros in front, is handled right
      if and only if zeros and digits together are at most ten. */
  lemma PaddedNumberFitsTenDigits(k: nat, s: string)
    requires AllDigits(s) && s != [] && s[0] != '0' && Value(s) <= INT_MAX
    ensures AllDigits(seq(k, i => '0') + s)
    ensures HandledRight(seq(k, i => '0') + s) <==> k + |s| <= 10
  {
    LeadingZeros(k, s);
    RightExactlyWhen(seq(k, i => '0') + s);
  }
}
