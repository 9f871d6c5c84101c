/**
 * The two-component vector of the newer revision, written out by hand rather
 * than stamped from the operator templates.
 *
 * Its storage is a two-slot array; the model keeps the two slots as the
 * fields `x` and `y`, and `Inner` is the array view every loop walks. Integer
 * operators follow Rust (truncating `/` and `%`); the float methods work on
 * exact reals.
 */
module Vec2 {
  import opened Elements
  import Lanes
  import Operators
  import FloatOps

  datatype Vector2<T> = Vector2(x: T, y: T)

  /** The `inner` array: slot 0 is `x`, slot 1 is `y`. */
  function Inner<T>(v: Vector2<T>): (s: seq<T>)
    ensures |s| == 2 && s[0] == v.x && s[1] == v.y
  {
    [v.x, v.y]
  }

  /** Rebuilds a vector from its array; `Inner` and `FromInner` are inverse. */
  function FromInner<T>(s: seq<T>): (v: Vector2<T>)
    requires |s| == 2
    ensures Inner(v) == s
  {
    Vector2(s[0], s[1])
  }

  lemma InnerRoundTrip<T>(v: Vector2<T>)
    ensures FromInner(Inner(v)) == v
  {
  }

  /** `a ⊕ b` and `a ⊕= b` for `+`, `-`, `*`, `/` and `%`: each runs one loop
      over the receiver's array, so each leaves `x` and `y` combined slot by
      slot. Division and remainder by a zero slot panic. */
  method Operate(op: Operators.BinOp, lhs: Vector2<int>, rhs: Vector2<int>) returns (r: Vector2<int>)
    requires Operators.Defined(op, rhs.x) && Operators.Defined(op, rhs.y)
    ensures r.x == Operators.Apply(op, lhs.x, rhs.x)
    ensures r.y == Operators.Apply(op, lhs.y, rhs.y)
    ensures Inner(r) == Operators.Binary(op, Inner(lhs), Inner(rhs))
  {
    var out := Operators.Assign(op, Inner(lhs), Inner(rhs));
    r := FromInner(out);
  }

  /** `v ⊕ s`, `v ⊕ &s` and `v ⊕= s`: the scalar is applied to both slots. */
  method OperateScalar(op: Operators.BinOp, lhs: Vector2<int>, s: int) returns (r: Vector2<int>)
    requires Operators.Defined(op, s)
    ensures r.x == Operators.Apply(op, lhs.x, s)
    ensures r.y == Operators.Apply(op, lhs.y, s)
    ensures Inner(r) == Operators.Binary(op, Inner(lhs), Lanes.Fill(2, s))
  {
    var out := Operators.AssignScalar(op, Inner(lhs), s);
    Operators.ScalarIsBroadcast(op, Inner(lhs), s);
    r := FromInner(out);
  }

  /** `a % b`: each slot is the truncating remainder, which recomposes the
      dividend with the truncating quotient, is smaller than the divisor in
      magnitude and keeps the dividend's sign. */
  method Remainder(lhs: Vector2<int>, rhs: Vector2<int>) returns (r: Vector2<int>)
    requires rhs.x != 0 && rhs.y != 0
    ensures lhs.x == rhs.x * TruncDiv(lhs.x, rhs.x) + r.x
    ensures lhs.y == rhs.y * TruncDiv(lhs.y, rhs.y) + r.y
    ensures Abs(r.x) < Abs(rhs.x) && Abs(r.y) < Abs(rhs.y)
    ensures r.x == 0 || ((r.x < 0) == (lhs.x < 0))
    ensures r.y == 0 || ((r.y < 0) == (lhs.y < 0))
  {
    r := Operate(Operators.Percent, lhs, rhs);
    TruncDivRem(lhs.x, rhs.x);
    TruncDivRem(lhs.y, rhs.y);
  }

  /** `-v`: both slots negated in place. */
  method Negate(v: Vector2<int>) returns (r: Vector2<int>)
    ensures r.x == -v.x && r.y == -v.y
    ensures Inner(r) == Operators.Neg(Inner(v))
  {
    var out := Operators.NegByValue(Inner(v));
    r := FromInner(out);
  }

  /** `Zero::zero()` and `One::one()`: both slots `off`, both slots `on`. */
  function Zero<T>(st: States<T>): Vector2<T>
  {
    Vector2(st.off, st.off)
  }

  function One<T>(st: States<T>): Vector2<T>
  {
    Vector2(st.on, st.on)
  }

  /** `is_zero`: both slots are zero. */
  predicate IsZero<T(==)>(st: States<T>, v: Vector2<T>)
  {
    v.x == st.off && v.y == st.off
  }

  /** `is_zero` recognises exactly `zero()`; `one()` is not zero because the
      element's two identity values differ. */
  lemma ZeroOne<T>(st: States<T>, v: Vector2<T>)
    requires st.off != st.on
    ensures IsZero(st, v) <==> v == Zero(st)
    ensures IsZero(st, Zero(st)) && !IsZero(st, One(st))
    ensures Inner(Zero(st)) == Lanes.Fill(2, st.off) && Inner(One(st)) == Lanes.Fill(2, st.on)
  {
  }

  /** `length_sqrt`: `x² + y²`, never negative and zero only for the zero
      vector. */
  method LengthSqrt(v: Vector2<real>) returns (len: real)
    ensures len == v.x * v.x + v.y * v.y
    ensures len >= 0.0
    ensures len == 0.0 <==> v == Zero(F32)
  {
    len := FloatOps.LengthSqrt(Inner(v));
    FloatOps.SumOfProductsOfTwo(Inner(v), Inner(v));
  }

  /** Σ s[i], summed from slot 0 upward. */
  function Sum(s: seq<real>): real
    decreases |s|
  {
    if |s| == 0 then 0.0 else Sum(s[..|s| - 1]) + s[|s| - 1]
  }

  /** `dot` as written: it sums the slots of `self - other`, that is the
      difference of the two vectors' component sums, not a sum of products. */
  function DotAsWritten(a: Vector2<real>, b: Vector2<real>): (d: real)
    ensures d == (a.x + a.y) - (b.x + b.y)
  {
    var diff := Inner(Vector2(a.x - b.x, a.y - b.y));
    assert diff[..1][..0] == [];
    assert Sum(diff[..1]) == Sum(diff[..1][..0]) + diff[0];
    Sum(diff)
  }

  /** The dot product the method is named for: `x·x' + y·y'`. */
  function Dot(a: Vector2<real>, b: Vector2<real>): (d: real)
    ensures d == a.x * b.x + a.y * b.y
  {
    FloatOps.SumOfProductsOfTwo(Inner(a), Inner(b));
    FloatOps.SumOfProducts(Inner(a), Inner(b))
  }

  /** The written `dot` of any vector with itself is zero, while the dot
      product of a vector with itself is its squared length: for (1, 0) the
      two disagree. */
  lemma DotAsWrittenVanishes(a: Vector2<real>)
    ensures DotAsWritten(a, a) == 0.0
    ensures DotAsWritten(Vector2(1.0, 0.0), Vector2(1.0, 0.0)) == 0.0
    ensures Dot(Vector2(1.0, 0.0), Vector2(1.0, 0.0)) == 1.0
  {
  }

  /** The intended dot product is symmetric, and a vector's product with
      itself is zero exactly for the zero vector. */
  lemma DotProperties(a: Vector2<real>, b: Vector2<real>)
    ensures Dot(a, b) == Dot(b, a)
    ensures Dot(a, a) >= 0.0
    ensures Dot(a, a) == 0.0 <==> a == Zero(F32)
  {
    FloatOps.DotSymmetric(Inner(a), Inner(b));
    FloatOps.SumOfSquaresZero(Inner(a));
  }

  /** `lerp(a, b, t) = a + (b - a) * t` on both slots: `a` at t = 0 and `b`
      at t = 1, the direction opposite to the shared template's lerp. */
  function Lerp(a: Vector2<real>, b: Vector2<real>, t: real): (r: Vector2<real>)
    ensures r.x - a.x == (b.x - a.x) * t && r.y - a.y == (b.y - a.y) * t
    ensures t == 0.0 ==> r == a
    ensures t == 1.0 ==> r == b
    ensures Inner(r) == FloatOps.LerpAsWritten(Inner(b), Inner(a), t)
  {
    FloatOps.LerpAsWrittenIsReversed(Inner(b), Inner(a), t);
    FromInner(FloatOps.Lerp(Inner(a), Inner(b), t))
  }
}
