/**
 * The newer revision's unit tests, restated over the model. Operator tests
 * written on f32 vectors are stated on integer vectors, which agree with them
 * for these small whole values.
 */
module Fixtures {
  import opened Elements
  import Operators
  import Vec2
  import Vec3
  import Vec4
  import Swizzle

  /** `swizzle`: repeated, reversed and widened orders. */
  lemma SwizzleCases()
    ensures Swizzle.Vec3Get3(Vec3.New(130.0, 52.0, 86.0), [0, 0, 0]) == Vec3.New(130.0, 130.0, 130.0)
    ensures Swizzle.Vec3Get3(Vec3.New(130.0, 52.0, 86.0), [1, 1, 1]) == Vec3.New(52.0, 52.0, 52.0)
    ensures Swizzle.Vec3Get3(Vec3.New(130.0, 52.0, 86.0), [2, 1, 0]) == Vec3.New(86.0, 52.0, 130.0)
    ensures Swizzle.Vec3Get3(Vec3.New(false, true, true), [0, 0, 0]) == Vec3.New(false, false, false)
    ensures Swizzle.Vec3Get3(Vec3.New(false, true, true), [1, 1, 1]) == Vec3.New(true, true, true)
    ensures Swizzle.Vec3Get4(Vec3.New(false, true, true), [2, 1, 0, 1]) == Vec4.New(true, true, false, true)
  {
  }

  /** `operators`: sums, differences, products and negations of the named
      constants. */
  lemma OperatorCases()
    ensures Operators.Binary(Operators.Plus, Vec3.Elems(Vec3.Y(I32)), Vec3.Elems(Vec3.One(I32))) == [1, 2, 1]
    ensures Operators.Binary(Operators.Plus, Vec3.Elems(Vec3.X(I32)), Vec3.Elems(Vec3.Y(I32))) == [1, 1, 0]
    ensures Operators.Binary(Operators.Minus, Vec4.Elems(Vec4.One(I32)), Vec4.Elems(Vec4.W(I32))) == [1, 1, 1, 0]
    ensures Operators.Scalar(Operators.Times, Operators.Binary(Operators.Times, Vec4.Elems(Vec4.One(I32)), Vec4.Elems(Vec4.W(I32))), 2) == [0, 0, 0, 2]
    ensures Operators.Binary(Operators.Plus, Vec4.Elems(Vec4.One(I32)), Operators.Scalar(Operators.Times, Vec4.Elems(Vec4.W(I32)), 2)) == [1, 1, 1, 3]
    ensures Operators.Binary(Operators.Minus, Vec2.Inner(Vec2.One(I32)), Vec2.Inner(Vec2.Zero(I32))) == Vec2.Inner(Vec2.One(I32))
    ensures Operators.Neg(Vec3.Elems(Vec3.One(I32))) == [-1, -1, -1]
    ensures Operators.Binary(Operators.Plus, Operators.Neg(Vec3.Elems(Vec3.One(I32))), Operators.Scalar(Operators.Times, Vec3.Elems(Vec3.Y(I32)), 2)) == [-1, 1, -1]
    ensures Operators.Neg(Vec2.Inner(Vec2.One(I32))) != Vec2.Inner(Vec2.One(I32))
  {
    assert Operators.Neg(Vec2.Inner(Vec2.One(I32)))[0] == -1;
  }

  /** `arithemtics`: X and Y are orthogonal, and one cross product worked
      out. */
  lemma ArithmeticCases()
    ensures Vec3.Dot(Vec3.X(F32), Vec3.Y(F32)) == 0.0
    ensures Vec3.Cross(Vec3.New(2.0, 3.0, 4.0), Vec3.New(5.0, 6.0, 7.0)) == Vec3.New(-3.0, 6.0, -3.0)
  {
  }
}
