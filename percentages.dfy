/** Integer percentage adjustments of InsuranceCalculation/IntExtensions.cs.
    C#'s integer `/` truncates toward zero, whereas Dafny's is Euclidean, so
    the truncating quotient is written out. */
module Percentages {

  /** C#'s `a / b` for a positive divisor: the quotient rounded toward zero,
      so the remainder takes the sign of the dividend. */
  function TruncDiv(a: int, b: int): (q: int)
    requires b > 0
    ensures a >= 0 ==> 0 <= a - q * b < b
    ensures a < 0 ==> -b < a - q * b <= 0
  {
    if a >= 0 then a / b else -((-a) / b)
  }

  /** `value + value * percentage / 100` with C# truncation. */
  function IncreasePercentage(value: int, percentage: int): (r: int)
    ensures value * percentage >= 0 ==> r * 100 <= value * (100 + percentage) < r * 100 + 100
    ensures value * percentage < 0 ==> r * 100 - 100 < value * (100 + percentage) <= r * 100
  {
    value + TruncDiv(value * percentage, 100)
  }

  /** `value - value * percentage / 100` with C# truncation. */
  function DecreasePercentage(value: int, percentage: int): (r: int)
    ensures value * percentage >= 0 ==> r * 100 - 100 < value * (100 - percentage) <= r * 100
    ensures value * percentage < 0 ==> r * 100 <= value * (100 - percentage) < r * 100 + 100
  {
    value - TruncDiv(value * percentage, 100)
  }

  /** A percentage of 0 leaves the value unchanged, both ways. */
  lemma ZeroPercentageIsIdentity(value: int)
    ensures IncreasePercentage(value, 0) == value
    ensures DecreasePercentage(value, 0) == value
  {
  }

  /** For a non-negative value and percentage, increasing never lowers the
      value and decreasing never raises it. */
  lemma AdjustmentDirection(value: int, percentage: int)
    requires value >= 0 && percentage >= 0
    ensures IncreasePercentage(value, percentage) >= value
    ensures DecreasePercentage(value, percentage) <= value
  {
  }

  /** On non-negative values, increasing by a non-negative percentage keeps the order. */
  lemma IncreaseMonotone(value: int, other: int, percentage: int)
    requires 0 <= value <= other && percentage >= 0
    ensures 0 <= IncreasePercentage(value, percentage) <= IncreasePercentage(other, percentage)
  {
    var a, b := value * percentage, other * percentage;
    assert b - a == (other - value) * percentage;
    assert 0 <= a <= b;
    var qa, qb := TruncDiv(a, 100), TruncDiv(b, 100);
    assert qa * 100 <= a && b < qb * 100 + 100;
  }

  /** Taking at most 100% off a positive value leaves it non-negative, and
      taking 10% off leaves it positive. */
  lemma DecreaseKeepsSign(value: int, percentage: int)
    requires value >= 1 && 0 <= percentage <= 100
    ensures DecreasePercentage(value, percentage) >= 0
    ensures percentage == 10 ==> DecreasePercentage(value, percentage) >= 1
  {
    var product := value * percentage;
    assert 0 <= product <= value * 100 by {
      assert value * (100 - percentage) >= 0;
    }
    var q := TruncDiv(product, 100);
    assert q * 100 <= product;
    if percentage == 10 {
      assert q * 10 <= value;
    }
  }

  /** Because C# rounds toward zero, adjusting a negated value gives the
      negated result (Euclidean or floor division would not). */
  lemma AdjustmentIsOdd(value: int, percentage: int)
    ensures IncreasePercentage(-value, percentage) == -IncreasePercentage(value, percentage)
    ensures DecreasePercentage(-value, percentage) == -DecreasePercentage(value, percentage)
  {
    assert (-value) * percentage == -(value * percentage);
  }

  lemma IncreaseThenDecreaseTen()
    ensures IncreasePercentage(500, 10) == 550
    ensures DecreasePercentage(550, 10) == 495
  {
  }
}
