/**
 * Python's `f"{x:.0f}"` on an exact real: round half to even, written in
 * decimal, with a minus sign for every negative input (so -0.4 gives "-0").
 */
module ScoreText {

  /** Rounding to the nearest integer, ties to the even neighbour. */
  function RoundHalfEven(x: real): (n: int)
    ensures x - 0.5 <= n as real <= x + 0.5
    ensures (n as real == x - 0.5 || n as real == x + 0.5) ==> n % 2 == 0
  {
    var f := x.Floor;
    var d := x - f as real;
    if d < 0.5 then f
    else if d > 0.5 then f + 1
    else if f % 2 == 0 then f
    else f + 1
  }

  /** The two properties above single out one integer, so they are a complete
      description of the rounding. */
  lemma RoundHalfEvenUnique(x: real, k: int)
    requires x - 0.5 <= k as real <= x + 0.5
    requires (k as real == x - 0.5 || k as real == x + 0.5) ==> k % 2 == 0
    ensures k == RoundHalfEven(x)
  {
  }

  function DigitChar(d: nat): (c: char)
    requires d < 10
  {
    "0123456789"[d]
  }

  function DigitValue(c: char): (digit: int) {
    c as int - '0' as int
  }

  /** The decimal digits of `n`, most significant first, without leading zeros. */
  function Decimal(n: nat): (s: string)
    ensures |s| >= 1
    ensures forall k :: 0 <= k < |s| ==> '0' <= s[k] <= '9'
    ensures |s| > 1 ==> s[0] != '0'
    decreases n
  {
    if n < 10 then [DigitChar(n)] else Decimal(n / 10) + [DigitChar(n % 10)]
  }

  /** Reading a string of decimal digits. */
  function DecimalValue(s: string): (value: int)
    decreases |s|
  {
    if s == [] then 0 else 10 * DecimalValue(s[..|s| - 1]) + DigitValue(s[|s| - 1])
  }

  /** Reading the digits back gives the number. */
  lemma {:induction false} DecimalRoundTrip(n: nat)
    ensures DecimalValue(Decimal(n)) == n
    decreases n
  {
    var s := Decimal(n);
    if n < 10 {
      assert s[..|s| - 1] == [];
      assert DigitValue(DigitChar(n)) == n;
    } else {
      DecimalRoundTrip(n / 10);
      assert s[..|s| - 1] == Decimal(n / 10);
      assert DigitValue(DigitChar(n % 10)) == n % 10;
    }
  }

  /** `f"{x:.0f}"` */
  function Fixed0(x: real): (s: string)
  {
    var n := RoundHalfEven(x);
    (if x < 0.0 then "-" else "") + Decimal(if n < 0 then -n else n)
  }

  /** For a non-negative score the text is the decimal of the rounded score. */
  lemma Fixed0OfNonNegative(x: real)
    requires x >= 0.0
    ensures RoundHalfEven(x) >= 0
    ensures Fixed0(x) == Decimal(RoundHalfEven(x))
    ensures DecimalValue(Fixed0(x)) == RoundHalfEven(x)
  {
    DecimalRoundTrip(RoundHalfEven(x));
  }
}
