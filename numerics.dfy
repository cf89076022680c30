/** The few facts about `real` (CGFloat) arithmetic the other modules share. */
module Numerics {

  function Min(a: real, b: real): real { if a <= b then a else b }
  function Max(a: real, b: real): real { if a >= b then a else b }
  /** Swift's `abs` on a CGFloat. */
  function Abs(x: real): real { if x < 0.0 then -x else x }

  lemma MulNonNegative(a: real, b: real)
    requires a >= 0.0 && b >= 0.0
    ensures a * b >= 0.0
  {
  }

  lemma MulPositive(a: real, b: real)
    requires a > 0.0 && b > 0.0
    ensures a * b > 0.0
  {
  }
}
