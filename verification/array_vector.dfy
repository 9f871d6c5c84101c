/**
 * What the older revision's array-backed `Vector2`, `Vector3` and `Vector4`
 * share: the `data` array (a sequence whose length is the arity), indexing,
 * the element-wise comparisons and the `all` / `any` reductions of a boolean
 * mask. Comparisons are stated over exact reals.
 */
module ArrayVector {
  import Lanes

  /** `Index`: slot i of `data`; an index past the arity is a fatal error. */
  function Index<T>(v: seq<T>, i: nat): T
    requires i < |v|
  {
    v[i]
  }

  /** `IndexMut`: a write through slot i replaces that slot only. */
  function IndexMut<T>(v: seq<T>, i: nat, e: T): (r: seq<T>)
    requires i < |v|
    ensures |r| == |v| && Index(r, i) == e
    ensures forall j :: 0 <= j < |v| && j != i ==> r[j] == v[j]
  {
    v[i := e]
  }

  /** A write followed by a write of the old value leaves the vector as it
      was. */
  lemma WriteBack<T>(v: seq<T>, i: nat, e: T)
    requires i < |v|
    ensures IndexMut(IndexMut(v, i, e), i, Index(v, i)) == v
  {
  }

  /** The five element-wise comparisons `elem_eq`, `elem_gt`, `elem_lt`,
      `elem_gte` and `elem_lte`. */
  datatype Comparison = Eq | Gt | Lt | Gte | Lte

  predicate Holds(c: Comparison, x: real, y: real)
  {
    match c
    case Eq => x == y
    case Gt => x > y
    case Lt => x < y
    case Gte => x >= y
    case Lte => x <= y
  }

  /** The mask a comparison produces: slot i compares slot i alone. */
  function Mask(c: Comparison, a: seq<real>, b: seq<real>): (r: seq<bool>)
    requires |a| == |b|
    ensures |r| == |a|
  {
    seq(|a|, i requires 0 <= i < |a| => Holds(c, a[i], b[i]))
  }

  /** `elem_*`: a boolean `ZERO` whose slots are overwritten one by one with
      the comparison of the operands' slots. */
  method ElemWise(c: Comparison, a: seq<real>, b: seq<real>) returns (out: seq<bool>)
    requires |a| == |b|
    ensures |out| == |a|
    ensures forall i :: 0 <= i < |a| ==> (out[i] <==> Holds(c, a[i], b[i]))
    ensures out == Mask(c, a, b)
  {
    out := Lanes.Fill(|a|, false);
    for i := 0 to |a|
      invariant |out| == |a|
      invariant forall j :: 0 <= j < i ==> out[j] == Holds(c, a[j], b[j])
    {
      out := out[i := Holds(c, a[i], b[i])];
    }
  }

  /** Slot-wise negation of a mask. */
  function Not(m: seq<bool>): (r: seq<bool>)
    ensures |r| == |m|
  {
    seq(|m|, i requires 0 <= i < |m| => !m[i])
  }

  /** On a total order the five masks are tied together: `>=` is the negation
      of `<`, `<=` is `<` or `==`, and `>` is `<` with the operands swapped. */
  lemma ComparisonDuality(a: seq<real>, b: seq<real>)
    requires |a| == |b|
    ensures Mask(Gte, a, b) == Not(Mask(Lt, a, b))
    ensures forall i :: 0 <= i < |a| ==> Mask(Lte, a, b)[i] == (Mask(Lt, a, b)[i] || Mask(Eq, a, b)[i])
    ensures Mask(Gt, a, b) == Mask(Lt, b, a)
    ensures Mask(Eq, a, b) == Mask(Eq, b, a)
  {
  }

  /** The left fold `seed & m[0] & m[1] & ...` that `all` computes. */
  function FoldAnd(seed: bool, m: seq<bool>): bool
    decreases |m|
  {
    if |m| == 0 then seed else FoldAnd(seed, m[..|m| - 1]) && m[|m| - 1]
  }

  /** The left fold `seed | m[0] | m[1] | ...` that `any` computes. */
  function FoldOr(seed: bool, m: seq<bool>): bool
    decreases |m|
  {
    if |m| == 0 then seed else FoldOr(seed, m[..|m| - 1]) || m[|m| - 1]
  }

  /** The `&`-fold holds exactly when the seed and every slot hold. */
  lemma {:induction false} FoldAndMeaning(seed: bool, m: seq<bool>)
    ensures FoldAnd(seed, m) <==> seed && forall i :: 0 <= i < |m| ==> m[i]
    decreases |m|
  {
    if |m| > 0 {
      var p := m[..|m| - 1];
      FoldAndMeaning(seed, p);
      assert forall i :: 0 <= i < |p| ==> p[i] == m[i];
    }
  }

  /** The `|`-fold holds exactly when the seed or some slot holds. */
  lemma {:induction false} FoldOrMeaning(seed: bool, m: seq<bool>)
    ensures FoldOr(seed, m) <==> seed || exists i :: 0 <= i < |m| && m[i]
    decreases |m|
  {
    if |m| > 0 {
      var p := m[..|m| - 1];
      FoldOrMeaning(seed, p);
      assert forall i :: 0 <= i < |p| ==> p[i] == m[i];
      if m[|m| - 1] {
        assert exists i :: 0 <= i < |m| && m[i];
      }
    }
  }

  /** `all` as written: the accumulator starts at `false`, and `false & x` is
      `false`, so the answer is `false` for every mask. */
  method AllAsWritten(m: seq<bool>) returns (out: bool)
    ensures out == FoldAnd(false, m)
    ensures !out
  {
    out := false;
    for i := 0 to |m|
      invariant out == FoldAnd(false, m[..i])
    {
      assert m[..i + 1][..i] == m[..i];
      var slot := m[i];
      out := out && slot;
    }
    assert m[..|m|] == m;
    FoldAndMeaning(false, m);
  }

  /** `all` with the accumulator seeded `true`: every slot holds. */
  method All(m: seq<bool>) returns (out: bool)
    ensures out == FoldAnd(true, m)
    ensures out <==> forall i :: 0 <= i < |m| ==> m[i]
  {
    out := true;
    for i := 0 to |m|
      invariant out == FoldAnd(true, m[..i])
    {
      assert m[..i + 1][..i] == m[..i];
      var slot := m[i];
      out := out && slot;
    }
    assert m[..|m|] == m;
    FoldAndMeaning(true, m);
  }

  /** `any`: the accumulator starts at `false`, so the answer is whether some
      slot holds. */
  method Any(m: seq<bool>) returns (out: bool)
    ensures out == FoldOr(false, m)
    ensures out <==> exists i :: 0 <= i < |m| && m[i]
  {
    out := false;
    for i := 0 to |m|
      invariant out == FoldOr(false, m[..i])
    {
      assert m[..i + 1][..i] == m[..i];
      var slot := m[i];
      out := out || slot;
    }
    assert m[..|m|] == m;
    FoldOrMeaning(false, m);
  }

  /** `all` and `any` are dual: every slot holds exactly when no slot of the
      negated mask does. A mask of all `true` separates the written `all` from
      the intended one. */
  lemma AllAnyDuality(m: seq<bool>)
    ensures FoldAnd(true, m) <==> !FoldOr(false, Not(m))
    ensures !FoldAnd(false, Lanes.Fill(|m|, true))
    ensures FoldAnd(true, Lanes.Fill(|m|, true))
  {
    FoldAndMeaning(true, m);
    FoldOrMeaning(false, Not(m));
    FoldAndMeaning(false, Lanes.Fill(|m|, true));
    FoldAndMeaning(true, Lanes.Fill(|m|, true));
    if !FoldAnd(true, m) {
      var i :| 0 <= i < |m| && !m[i];
      assert Not(m)[i];
    }
  }
}
