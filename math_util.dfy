// Scalar helpers of the math library, modelled over unbounded integers
// (the templates are instantiated with integer and floating-point types;
// only the integer behaviour is captured here).
module MathUtil {

  /** The angle constants, as the header writes them (single precision
      literals, read here as exact decimals). */
  const Pi: real := 3.141592654
  const TwoPi: real := 6.283185307
  const PiDivTwo: real := 1.570796327
  const PiDivFour: real := 0.785398163

  /** True when `value` lies in the closed interval [minValue, maxValue]. */
  predicate IsInRange(minValue: int, maxValue: int, value: int)
  {
    minValue <= value && value <= maxValue
  }

  /** The larger argument; on a tie the second one, which is equal anyway. */
  function Max(left: int, right: int): (r: int)
    ensures r >= left && r >= right
    ensures r == left || r == right
  {
    if left > right then left else right
  }

  /** The smaller argument. */
  function Min(left: int, right: int): (r: int)
    ensures r <= left && r <= right
    ensures r == left || r == right
  {
    if left < right then left else right
  }

  function Sqr(value: int): (r: int)
    ensures r >= 0
    ensures r == Abs(value) * Abs(value)
  {
    value * value
  }

  function Abs(value: int): (r: int)
    ensures r >= 0
    ensures r == value || r == -value
  {
    if value < 0 then -value else value
  }

  /** Max(Min(upper, value), lower): the upper bound is applied first, so a
      lower bound above the upper bound wins. */
  function Clamp(lowerBound: int, upperBound: int, value: int): (r: int)
    ensures lowerBound <= upperBound ==> IsInRange(lowerBound, upperBound, r)
    ensures IsInRange(lowerBound, upperBound, value) ==> r == value
    ensures lowerBound > upperBound ==> r == lowerBound
    ensures value > upperBound && lowerBound <= upperBound ==> r == upperBound
    ensures value < lowerBound ==> r == lowerBound
  {
    Max(Min(upperBound, value), lowerBound)
  }

  /** |left - right| < epsilon. */
  predicate IsEqual(left: int, right: int, epsilon: int)
  {
    Abs(left - right) < epsilon
  }

  lemma IsEqualSymmetric(left: int, right: int, epsilon: int)
    ensures IsEqual(left, right, epsilon) <==> IsEqual(right, left, epsilon)
    ensures IsEqual(left, right, epsilon) ==> epsilon > 0
  {
    assert Abs(left - right) == Abs(right - left);
  }

  /** Approximate equality is membership of the open interval of radius
      `epsilon` around the other value. */
  lemma IsEqualWithin(left: int, right: int, epsilon: int)
    ensures IsEqual(left, right, epsilon) <==> right - epsilon < left < right + epsilon
  {
  }

  lemma IsEqualReflexive(value: int, epsilon: int)
    ensures IsEqual(value, value, epsilon) <==> epsilon > 0
  {
  }

  /** With ordered bounds, the values in range are exactly those clamping
      leaves unchanged. */
  lemma InRangeIffClampFixed(lowerBound: int, upperBound: int, value: int)
    ensures lowerBound <= upperBound ==>
      (IsInRange(lowerBound, upperBound, value) <==> Clamp(lowerBound, upperBound, value) == value)
  {
  }

  /** Clamping twice with the same bounds changes nothing the second time. */
  lemma ClampIdempotent(lowerBound: int, upperBound: int, value: int)
    requires lowerBound <= upperBound
    ensures Clamp(lowerBound, upperBound, Clamp(lowerBound, upperBound, value))
         == Clamp(lowerBound, upperBound, value)
  {
  }

  /** Clamp is monotone in the clamped value. */
  lemma ClampMonotone(lowerBound: int, upperBound: int, a: int, b: int)
    requires a <= b
    ensures Clamp(lowerBound, upperBound, a) <= Clamp(lowerBound, upperBound, b)
  {
  }
}
