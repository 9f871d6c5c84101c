/**
 * The operator templates that stamp out component-wise arithmetic for every
 * vector arity (`setup_add`, `setup_sub`, `setup_mul` and `setup_div`), and
 * the negation template `setup_una`. The vectors themselves take their `-v`
 * from `setup_neg`, whose body is not part of this model; `Vec3` reads it as
 * the same slot-wise negation.
 *
 * A vector is seen through its index view, a sequence whose length is the
 * arity. Each template runs one loop over the slots of its receiver. The four
 * binary templates differ only in the element operator, so they are modelled
 * by one loop over a `BinOp`. Elements are integers, with Rust's truncating
 * `/` and `%`.
 */
module Operators {
  import opened Elements
  import Lanes

  /** The element operator a template applies; `Percent` is the remainder,
      which only the two-component vector implements. */
  datatype BinOp = Plus | Minus | Times | Slash | Percent

  /** Integer `/` and `%` by zero panic: the operator is defined on `y` unless
      it divides by zero. */
  predicate Defined(op: BinOp, y: int)
  {
    (op.Slash? || op.Percent?) ==> y != 0
  }

  predicate DefinedOn(op: BinOp, rhs: seq<int>)
  {
    forall i :: 0 <= i < |rhs| ==> Defined(op, rhs[i])
  }

  function Apply(op: BinOp, x: int, y: int): int
    requires Defined(op, y)
  {
    match op
    case Plus => x + y
    case Minus => x - y
    case Times => x * y
    case Slash => TruncDiv(x, y)
    case Percent => TruncRem(x, y)
  }

  /** `a ⊕ b` between two vectors of one arity. */
  function Binary(op: BinOp, a: seq<int>, b: seq<int>): (r: seq<int>)
    requires |a| == |b| && DefinedOn(op, b)
    ensures |r| == |a|
  {
    seq(|a|, i requires 0 <= i < |a| => Apply(op, a[i], b[i]))
  }

  /** `v ⊕ s` with a scalar right-hand side. */
  function Scalar(op: BinOp, v: seq<int>, s: int): (r: seq<int>)
    requires Defined(op, s)
    ensures |r| == |v|
  {
    seq(|v|, i requires 0 <= i < |v| => Apply(op, v[i], s))
  }

  /** `-v`. */
  function Neg(v: seq<int>): (r: seq<int>)
    ensures |r| == |v|
  {
    seq(|v|, i requires 0 <= i < |v| => -v[i])
  }

  /** The loop of a binary template, run on the receiver: slot by slot,
      `self[i] = self[i] ⊕ rhs[i]`. The by-value operator (`a ⊕ b`, which takes
      `mut self`) and the in-place one (`a ⊕= b`) both run it, so both leave
      every slot i equal to `a[i] ⊕ b[i]`. */
  method Assign(op: BinOp, lhs: seq<int>, rhs: seq<int>) returns (out: seq<int>)
    requires |lhs| == |rhs| && DefinedOn(op, rhs)
    ensures |out| == |lhs|
    ensures forall i :: 0 <= i < |lhs| ==> out[i] == Apply(op, lhs[i], rhs[i])
    ensures out == Binary(op, lhs, rhs)
  {
    out := lhs;
    for i := 0 to |lhs|
      invariant |out| == |lhs|
      invariant forall j :: 0 <= j < i ==> out[j] == Apply(op, lhs[j], rhs[j])
      invariant forall j :: i <= j < |lhs| ==> out[j] == lhs[j]
    {
      out := out[i := Apply(op, out[i], rhs[i])];
    }
  }

  /** The loop of a scalar template, `self[i] = self[i] ⊕ rhs` for every slot;
      run both by `v ⊕ s` and by `v ⊕= s`. */
  method AssignScalar(op: BinOp, lhs: seq<int>, s: int) returns (out: seq<int>)
    requires Defined(op, s)
    ensures |out| == |lhs|
    ensures forall i :: 0 <= i < |lhs| ==> out[i] == Apply(op, lhs[i], s)
    ensures out == Scalar(op, lhs, s)
  {
    out := lhs;
    for i := 0 to |lhs|
      invariant |out| == |lhs|
      invariant forall j :: 0 <= j < i ==> out[j] == Apply(op, lhs[j], s)
      invariant forall j :: i <= j < |lhs| ==> out[j] == lhs[j]
    {
      out := out[i := Apply(op, out[i], s)];
    }
  }

  /** A scalar operand acts as the vector that repeats it in every slot. */
  lemma ScalarIsBroadcast(op: BinOp, v: seq<int>, s: int)
    requires Defined(op, s)
    ensures DefinedOn(op, Lanes.Fill(|v|, s))
    ensures Scalar(op, v, s) == Binary(op, v, Lanes.Fill(|v|, s))
  {
  }

  /** Negation by value: the receiver's slots are negated in place. */
  method NegByValue(v: seq<int>) returns (out: seq<int>)
    ensures |out| == |v|
    ensures forall i :: 0 <= i < |v| ==> out[i] == -v[i]
    ensures out == Neg(v)
  {
    out := v;
    for i := 0 to |v|
      invariant |out| == |v|
      invariant forall j :: 0 <= j < i ==> out[j] == -v[j]
      invariant forall j :: i <= j < |v| ==> out[j] == v[j]
    {
      out := out[i := -out[i]];
    }
  }

  /** Negation through a reference: a fresh `ZERO` whose every slot is then
      overwritten with the negated slot of the operand. */
  method NegByRef(v: seq<int>) returns (out: seq<int>)
    ensures |out| == |v|
    ensures forall i :: 0 <= i < |v| ==> out[i] == -v[i]
    ensures out == Neg(v)
  {
    out := Lanes.Fill(|v|, I32.off);
    for i := 0 to |v|
      invariant |out| == |v|
      invariant forall j :: 0 <= j < i ==> out[j] == -v[j]
    {
      out := out[i := -v[i]];
    }
  }

  /** Negating twice restores the vector (integers are unbounded). */
  lemma NegInvolution(v: seq<int>)
    ensures Neg(Neg(v)) == v
  {
  }

  /** Subtracting what was added restores the vector: `a + b - b == a`. */
  lemma SubUndoesAdd(a: seq<int>, b: seq<int>)
    requires |a| == |b|
    ensures Binary(Minus, Binary(Plus, a, b), b) == a
  {
  }

  /** Vector `/` and `%` recompose the dividend: `(a / b) * b + a % b == a`,
      and every slot of `a % b` is smaller than the divisor in magnitude and
      carries the dividend's sign. */
  lemma DivRemRecompose(a: seq<int>, b: seq<int>)
    requires |a| == |b| && DefinedOn(Slash, b)
    ensures DefinedOn(Percent, b)
    ensures Binary(Plus, Binary(Times, Binary(Slash, a, b), b), Binary(Percent, a, b)) == a
    ensures forall i :: 0 <= i < |a| ==>
      Abs(Binary(Percent, a, b)[i]) < Abs(b[i])
      && (Binary(Percent, a, b)[i] == 0 || ((Binary(Percent, a, b)[i] < 0) == (a[i] < 0)))
  {
    forall i | 0 <= i < |a|
      ensures Abs(Binary(Percent, a, b)[i]) < Abs(b[i])
      ensures Binary(Percent, a, b)[i] == 0 || ((Binary(Percent, a, b)[i] < 0) == (a[i] < 0))
    {
      TruncDivRem(a[i], b[i]);
    }
  }
}
