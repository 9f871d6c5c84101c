/**
 * The older revision's f32 matrix: four array-backed `Vector4` rows,
 * indexed row by row. Floats are modelled as exact reals.
 */
module LegacyMatrix {
  import opened Elements
  import FloatOps
  import LegacyVec4

  /** Four rows of four entries each. */
  predicate Shaped(m: seq<seq<real>>)
  {
    |m| == 4 && forall i :: 0 <= i < 4 ==> |m[i]| == 4
  }

  /** `Index`: row i; an index of 4 or more is a fatal error. */
  function Index(m: seq<seq<real>>, i: nat): seq<real>
    requires i < |m|
  {
    m[i]
  }

  /** `IndexMut`: a write through row i replaces that row and no other. */
  function IndexMut(m: seq<seq<real>>, i: nat, row: seq<real>): (r: seq<seq<real>>)
    requires i < |m|
    ensures |r| == |m| && Index(r, i) == row
    ensures forall j :: 0 <= j < |m| && j != i ==> Index(r, j) == Index(m, j)
    ensures Shaped(m) && |row| == 4 ==> Shaped(r)
  {
    m[i := row]
  }

  /** `IDENTITY`: the rows X, Y, Z and W, so entry (i, j) is 1 exactly on the
      diagonal. */
  function Identity(): (m: seq<seq<real>>)
    ensures Shaped(m)
    ensures forall i, j :: 0 <= i < 4 && 0 <= j < 4 ==> m[i][j] == if i == j then 1.0 else 0.0
  {
    [LegacyVec4.X(F32), LegacyVec4.Y(F32), LegacyVec4.Z(F32), LegacyVec4.W(F32)]
  }

  /** `from_translation(p)`: `IDENTITY` with its first three rows rewritten to
      carry p in the last column, and its last row rewritten to W. */
  function FromTranslation(p: seq<real>): (m: seq<seq<real>>)
    requires |p| == 3
    ensures Shaped(m)
    ensures forall i, j :: 0 <= i < 4 && 0 <= j < 4 ==>
      m[i][j] == if j == 3 && i < 3 then p[i] else if i == j then 1.0 else 0.0
  {
    var m0 := Identity();
    var m1 := IndexMut(m0, 0, LegacyVec4.New(1.0, 0.0, 0.0, p[0]));
    var m2 := IndexMut(m1, 1, LegacyVec4.New(0.0, 1.0, 0.0, p[1]));
    var m3 := IndexMut(m2, 2, LegacyVec4.New(0.0, 0.0, 1.0, p[2]));
    IndexMut(m3, 3, LegacyVec4.W(F32))
  }

  /** Translating by the zero vector gives `IDENTITY`. */
  lemma TranslationByZero()
    ensures FromTranslation([0.0, 0.0, 0.0]) == Identity()
  {
    var t, id := FromTranslation([0.0, 0.0, 0.0]), Identity();
    forall i | 0 <= i < 4
      ensures t[i] == id[i]
    {
      assert forall j :: 0 <= j < 4 ==> t[i][j] == id[i][j];
    }
  }

  /** The model's own reference product of a matrix and a point: slot i is
      the dot product of row i with the point, reading the rows as rows. The
      source defines no matrix-vector product and calls its layout column
      major; this product is only the yardstick for `FromTranslation`. */
  function Apply(m: seq<seq<real>>, v: seq<real>): (r: seq<real>)
    requires Shaped(m) && |v| == 4
    ensures |r| == 4
  {
    seq(4, i requires 0 <= i < 4 => FloatOps.SumOfProducts(m[i], v))
  }

  /** Applied to a point in homogeneous coordinates (w = 1), the translation
      matrix adds p to it and keeps w. */
  lemma TranslationMovesPoints(p: seq<real>, q: seq<real>)
    requires |p| == 3 && |q| == 3
    ensures Apply(FromTranslation(p), [q[0], q[1], q[2], 1.0]) == [q[0] + p[0], q[1] + p[1], q[2] + p[2], 1.0]
  {
    var t, v := FromTranslation(p), [q[0], q[1], q[2], 1.0];
    forall i | 0 <= i < 4
      ensures FloatOps.SumOfProducts(t[i], v) == t[i][0] * v[0] + t[i][1] * v[1] + t[i][2] * v[2] + t[i][3] * v[3]
    {
      FloatOps.SumOfProductsOfFour(t[i], v);
    }
  }
}
