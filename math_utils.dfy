/** The numeric helpers of the game framework that the core relies on. */
module MathUtils {

  /** MathUtils.clamp: the lower bound wins when value < min, then the upper bound. */
  function Clamp(value: real, min: real, max: real): (r: real)
    ensures min <= max ==> min <= r <= max
    ensures min <= value <= max ==> r == value
    ensures r == value || r == min || r == max
  {
    if value < min then min else if value > max then max else value
  }

  function Abs(v: real): (r: real)
    ensures r >= 0.0 && (r == v || r == -v)
  {
    if v < 0.0 then -v else v
  }

  /** Squaring is monotone on the non-negative reals. */
  lemma SquareMonotone(a: real, b: real)
    requires 0.0 <= a <= b
    ensures a * a <= b * b
  {
    assert a * a <= a * b;
  }
}
