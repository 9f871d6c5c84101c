/**
 * The shared floating-point vector algebra (`setup_vector_arithmatics`):
 * squared length, dot product, component-wise min and max, clamp and lerp.
 *
 * Elements are exact reals, an idealisation of f32 and f64: there is no
 * rounding, and no NaN to make `min`/`max` or comparisons partial.
 */
module FloatOps {
  import opened Elements
  import Lanes

  /** Σ a[i]·b[i], accumulated from slot 0 upward as the source loops do. */
  function SumOfProducts(a: seq<real>, b: seq<real>): real
    requires |a| == |b|
    decreases |a|
  {
    if |a| == 0 then 0.0
    else SumOfProducts(a[..|a| - 1], b[..|b| - 1]) + a[|a| - 1] * b[|b| - 1]
  }

  /** Σ v[i]². */
  function SumOfSquares(v: seq<real>): real
  {
    SumOfProducts(v, v)
  }

  /** One more slot extends the sum by one product: the step of the loops. */
  lemma SumOfProductsStep(a: seq<real>, b: seq<real>, i: nat)
    requires |a| == |b| && i < |a|
    ensures SumOfProducts(a[..i + 1], b[..i + 1]) == SumOfProducts(a[..i], b[..i]) + a[i] * b[i]
  {
    assert a[..i + 1][..i] == a[..i];
    assert b[..i + 1][..i] == b[..i];
  }

  /** The sum of products written out for the arities 2, 3 and 4. */
  lemma SumOfProductsOfTwo(a: seq<real>, b: seq<real>)
    requires |a| == |b| == 2
    ensures SumOfProducts(a, b) == a[0] * b[0] + a[1] * b[1]
  {
    var a1, b1 := a[..1], b[..1];
    assert a1[..0] == [] && b1[..0] == [];
    assert SumOfProducts(a1, b1) == SumOfProducts(a1[..0], b1[..0]) + a1[0] * b1[0];
    assert SumOfProducts(a, b) == SumOfProducts(a1, b1) + a[1] * b[1];
  }

  lemma SumOfProductsOfThree(a: seq<real>, b: seq<real>)
    requires |a| == |b| == 3
    ensures SumOfProducts(a, b) == a[0] * b[0] + a[1] * b[1] + a[2] * b[2]
  {
    SumOfProductsOfTwo(a[..2], b[..2]);
  }

  lemma SumOfProductsOfFour(a: seq<real>, b: seq<real>)
    requires |a| == |b| == 4
    ensures SumOfProducts(a, b) == a[0] * b[0] + a[1] * b[1] + a[2] * b[2] + a[3] * b[3]
  {
    SumOfProductsOfThree(a[..3], b[..3]);
  }

  /** `dot`: a zero accumulator to which every `self[i] * other[i]` is added. */
  method Dot(a: seq<real>, b: seq<real>) returns (d: real)
    requires |a| == |b|
    ensures d == SumOfProducts(a, b)
  {
    d := 0.0;
    for i := 0 to |a|
      invariant d == SumOfProducts(a[..i], b[..i])
    {
      SumOfProductsStep(a, b, i);
      d := d + a[i] * b[i];
    }
    assert a[..|a|] == a && b[..|b|] == b;
  }

  /** `length_sqrt`: a zero accumulator to which every `self[i] * self[i]` is
      added. The result is never negative, and it is zero exactly for the zero
      vector. */
  method LengthSqrt(v: seq<real>) returns (len: real)
    ensures len == SumOfSquares(v)
    ensures len >= 0.0
    ensures len == 0.0 <==> forall i :: 0 <= i < |v| ==> v[i] == 0.0
  {
    len := 0.0;
    for i := 0 to |v|
      invariant len == SumOfProducts(v[..i], v[..i])
    {
      SumOfProductsStep(v, v, i);
      len := len + v[i] * v[i];
    }
    assert v[..|v|] == v;
    SumOfSquaresZero(v);
  }

  /** The dot product is symmetric. */
  lemma {:induction false} DotSymmetric(a: seq<real>, b: seq<real>)
    requires |a| == |b|
    ensures SumOfProducts(a, b) == SumOfProducts(b, a)
  {
    if |a| > 0 {
      DotSymmetric(a[..|a| - 1], b[..|b| - 1]);
    }
  }

  /** A sum of products none of which is negative is not negative. */
  lemma {:induction false} ProductsNonNegative(a: seq<real>, b: seq<real>)
    requires |a| == |b|
    requires forall i :: 0 <= i < |a| ==> a[i] * b[i] >= 0.0
    ensures SumOfProducts(a, b) >= 0.0
    decreases |a|
  {
    if |a| > 0 {
      var n := |a| - 1;
      var pa, pb := a[..n], b[..n];
      assert forall i :: 0 <= i < n ==> pa[i] == a[i] && pb[i] == b[i];
      ProductsNonNegative(pa, pb);
      assert a[n] * b[n] >= 0.0;
    }
  }

  /** If, besides, the product at slot k is positive, so is the sum. */
  lemma {:induction false} ProductsPositive(a: seq<real>, b: seq<real>, k: nat)
    requires |a| == |b| && k < |a|
    requires forall i :: 0 <= i < |a| ==> a[i] * b[i] >= 0.0
    requires a[k] * b[k] > 0.0
    ensures SumOfProducts(a, b) > 0.0
    decreases |a|
  {
    var n := |a| - 1;
    var pa, pb := a[..n], b[..n];
    assert forall i :: 0 <= i < n ==> pa[i] == a[i] && pb[i] == b[i];
    if k < n {
      assert pa[k] * pb[k] > 0.0;
      ProductsPositive(pa, pb, k);
      assert a[n] * b[n] >= 0.0;
    } else {
      ProductsNonNegative(pa, pb);
      assert a[n] * b[n] > 0.0;
    }
  }

  /** A sum of products none of which is negative is not negative, and it is
      positive as soon as one product is. */
  lemma SumOfNonNegativeProducts(a: seq<real>, b: seq<real>)
    requires |a| == |b|
    requires forall i :: 0 <= i < |a| ==> a[i] * b[i] >= 0.0
    ensures SumOfProducts(a, b) >= 0.0
    ensures (exists k :: 0 <= k < |a| && a[k] * b[k] > 0.0) ==> SumOfProducts(a, b) > 0.0
  {
    ProductsNonNegative(a, b);
    if exists k :: 0 <= k < |a| && a[k] * b[k] > 0.0 {
      var k :| 0 <= k < |a| && a[k] * b[k] > 0.0;
      ProductsPositive(a, b, k);
    }
  }

  lemma SquareNonNegative(x: real)
    ensures x * x >= 0.0
  {
  }

  lemma SquarePositive(x: real)
    requires x != 0.0
    ensures x * x > 0.0
  {
  }

  /** A sum of squares is never negative, and it is zero exactly when every
      slot is zero. */
  lemma SumOfSquaresZero(v: seq<real>)
    ensures SumOfSquares(v) >= 0.0
    ensures SumOfSquares(v) == 0.0 <==> forall i :: 0 <= i < |v| ==> v[i] == 0.0
  {
    forall i | 0 <= i < |v|
      ensures v[i] * v[i] >= 0.0
    {
      SquareNonNegative(v[i]);
    }
    if exists k :: 0 <= k < |v| && v[k] != 0.0 {
      var k :| 0 <= k < |v| && v[k] != 0.0;
      SquarePositive(v[k]);
    }
    SumOfNonNegativeProducts(v, v);
    if forall i :: 0 <= i < |v| ==> v[i] == 0.0 {
      DotOfDisjointSupports(v, v);
    }
  }

  /** When every slot's product vanishes the dot product is zero. */
  lemma {:induction false} DotOfDisjointSupports(a: seq<real>, b: seq<real>)
    requires |a| == |b|
    requires forall i :: 0 <= i < |a| ==> a[i] * b[i] == 0.0
    ensures SumOfProducts(a, b) == 0.0
  {
    if |a| > 0 {
      var pa, pb := a[..|a| - 1], b[..|b| - 1];
      assert forall i :: 0 <= i < |pa| ==> pa[i] == a[i] && pb[i] == b[i];
      DotOfDisjointSupports(pa, pb);
    }
  }

  /** Distinct unit vectors of any arity are orthogonal, for f32 and f64. */
  lemma DotOfDistinctUnits(n: nat, j: nat, k: nat)
    requires j != k
    ensures SumOfProducts(Lanes.Unit(F32, n, j), Lanes.Unit(F32, n, k)) == 0.0
    ensures SumOfProducts(Lanes.Unit(F64, n, j), Lanes.Unit(F64, n, k)) == 0.0
  {
    DotOfDisjointSupports(Lanes.Unit(F32, n, j), Lanes.Unit(F32, n, k));
    DotOfDisjointSupports(Lanes.Unit(F64, n, j), Lanes.Unit(F64, n, k));
  }

  function MinOf(x: real, y: real): real
  {
    if x <= y then x else y
  }

  function MaxOf(x: real, y: real): real
  {
    if x >= y then x else y
  }

  /** `min`: slot i holds the smaller of `a[i]` and `b[i]`. */
  function Min(a: seq<real>, b: seq<real>): (r: seq<real>)
    requires |a| == |b|
    ensures |r| == |a|
    ensures forall i :: 0 <= i < |a| ==> r[i] <= a[i] && r[i] <= b[i]
    ensures forall i :: 0 <= i < |a| ==> r[i] == a[i] || r[i] == b[i]
  {
    seq(|a|, i requires 0 <= i < |a| => MinOf(a[i], b[i]))
  }

  /** `max`: slot i holds the larger of `a[i]` and `b[i]`. */
  function Max(a: seq<real>, b: seq<real>): (r: seq<real>)
    requires |a| == |b|
    ensures |r| == |a|
    ensures forall i :: 0 <= i < |a| ==> r[i] >= a[i] && r[i] >= b[i]
    ensures forall i :: 0 <= i < |a| ==> r[i] == a[i] || r[i] == b[i]
  {
    seq(|a|, i requires 0 <= i < |a| => MaxOf(a[i], b[i]))
  }

  /** `clamp(lo, hi)` is `self.min(hi).max(lo)`: first capped at the upper
      bound, then floored at the lower one. Where `lo[i] <= hi[i]` the slot lies
      in `[lo[i], hi[i]]`: a slot already inside is kept, one below is raised
      to `lo[i]` and one above is lowered to `hi[i]`. Where the bounds cross
      (`lo[i] > hi[i]`, which is not checked) the lower bound wins. */
  function Clamp(v: seq<real>, lo: seq<real>, hi: seq<real>): (r: seq<real>)
    requires |v| == |lo| == |hi|
    ensures |r| == |v|
    ensures forall i :: 0 <= i < |v| && lo[i] <= hi[i] ==> lo[i] <= r[i] <= hi[i]
    ensures forall i :: 0 <= i < |v| && lo[i] <= v[i] <= hi[i] ==> r[i] == v[i]
    ensures forall i :: 0 <= i < |v| && v[i] < lo[i] ==> r[i] == lo[i]
    ensures forall i :: 0 <= i < |v| && lo[i] <= hi[i] < v[i] ==> r[i] == hi[i]
    ensures forall i :: 0 <= i < |v| && lo[i] > hi[i] ==> r[i] == lo[i]
  {
    Max(Min(v, hi), lo)
  }

  /** `lerp(a, b, t)` as written in the operator template:
      `other + (self - other) * t`, which runs from `b` at t = 0 to `a` at t = 1. */
  function LerpAsWritten(a: seq<real>, b: seq<real>, t: real): (r: seq<real>)
    requires |a| == |b|
    ensures |r| == |a|
    ensures t == 0.0 ==> r == b
    ensures t == 1.0 ==> r == a
  {
    seq(|a|, i requires 0 <= i < |a| => b[i] + (a[i] - b[i]) * t)
  }

  /** `lerp(a, b, t) = a + (b - a) * t`, unclamped: `a` at t = 0, `b` at t = 1,
      and slot i moves by `(b[i] - a[i])` per unit of t. */
  function Lerp(a: seq<real>, b: seq<real>, t: real): (r: seq<real>)
    requires |a| == |b|
    ensures |r| == |a|
    ensures t == 0.0 ==> r == a
    ensures t == 1.0 ==> r == b
    ensures forall i :: 0 <= i < |a| ==> r[i] - a[i] == (b[i] - a[i]) * t
  {
    seq(|a|, i requires 0 <= i < |a| => a[i] + (b[i] - a[i]) * t)
  }

  /** The template's lerp runs backwards: it is the intended lerp with its two
      end points swapped, so at t = 0 it yields `b`, never `a` unless a == b. */
  lemma LerpAsWrittenIsReversed(a: seq<real>, b: seq<real>, t: real)
    requires |a| == |b|
    ensures LerpAsWritten(a, b, t) == Lerp(b, a, t)
    ensures a != b ==> LerpAsWritten(a, b, 0.0) != Lerp(a, b, 0.0)
  {
  }
}
