/**
 * The older revision's unit tests, restated over the model. Operator tests
 * written on f32 vectors are stated on integer vectors, which agree with them
 * for these small whole values.
 */
module LegacyFixtures {
  import opened Elements
  import Lanes
  import Operators
  import ArrayVector
  import LegacyVec2
  import LegacyVec3
  import LegacyVec4

  /** `swizzle`: repeated, reversed and widened orders. */
  lemma SwizzleCases()
    ensures Lanes.Gather([130.0, 52.0, 86.0], [0, 0, 0]) == [130.0, 130.0, 130.0]
    ensures Lanes.Gather([130.0, 52.0, 86.0], [1, 1, 1]) == [52.0, 52.0, 52.0]
    ensures Lanes.Gather([130.0, 52.0, 86.0], [2, 1, 0]) == [86.0, 52.0, 130.0]
    ensures Lanes.Gather([false, true, true], [0, 0, 0]) == [false, false, false]
    ensures Lanes.Gather([false, true, true], [1, 1, 1]) == [true, true, true]
    ensures Lanes.Gather([false, true, true], [2, 1, 0, 1]) == [true, true, false, true]
  {
  }

  /** `comparison`: X against Y slot by slot. */
  lemma ComparisonCases()
    ensures ArrayVector.Mask(ArrayVector.Eq, LegacyVec3.X(F32), LegacyVec3.Y(F32)) == [false, false, true]
    ensures ArrayVector.Mask(ArrayVector.Gt, LegacyVec3.X(F32), LegacyVec3.Y(F32)) == [true, false, false]
    ensures ArrayVector.Mask(ArrayVector.Lte, LegacyVec3.X(F32), LegacyVec3.Y(F32)) == [false, true, true]
  {
  }

  /** `operators`: sums and differences of the named constants. */
  lemma OperatorCases()
    ensures Operators.Binary(Operators.Plus, LegacyVec3.Y(I32), LegacyVec3.One(I32)) == [1, 2, 1]
    ensures Operators.Binary(Operators.Plus, LegacyVec3.X(I32), LegacyVec3.Y(I32)) == [1, 1, 0]
    ensures Operators.Binary(Operators.Minus, LegacyVec4.One(I32), LegacyVec4.W(I32)) == [1, 1, 1, 0]
    ensures Operators.Binary(Operators.Minus, LegacyVec2.One(I32), LegacyVec2.Zero(I32)) == LegacyVec2.One(I32)
  {
  }
}
