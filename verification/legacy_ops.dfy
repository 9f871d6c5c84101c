/**
 * The older revision's operator templates. The by-value forms (`a ⊕ b`,
 * `a ⊕ s`, their `*Assign` forms and `-v`) run the same slot loop on the
 * receiver as the newer templates, `Operators.Assign`, `Operators.AssignScalar`
 * and `Operators.NegByValue`. What is new here is the by-reference form
 * `&a ⊕ &b`, which fills a fresh `ZERO` instead of reusing the receiver.
 */
module LegacyOps {
  import opened Elements
  import Lanes
  import Operators

  /** `&a ⊕ &b`: `ZERO`, then slot i overwritten with `a[i] ⊕ b[i]`. */
  method ByRef(op: Operators.BinOp, a: seq<int>, b: seq<int>) returns (out: seq<int>)
    requires |a| == |b| && Operators.DefinedOn(op, b)
    ensures |out| == |a|
    ensures forall i :: 0 <= i < |a| ==> out[i] == Operators.Apply(op, a[i], b[i])
    ensures out == Operators.Binary(op, a, b)
  {
    out := Lanes.Fill(|a|, I32.off);
    for i := 0 to |a|
      invariant |out| == |a|
      invariant forall j :: 0 <= j < i ==> out[j] == Operators.Apply(op, a[j], b[j])
    {
      out := out[i := Operators.Apply(op, a[i], b[i])];
    }
  }

  /** By reference and by value agree: both end as `Operators.Binary`, so
      `&a + &b`, `a + b` and `a += b` leave the same vector. */
  method ByRefMatchesByValue(op: Operators.BinOp, a: seq<int>, b: seq<int>) returns (byRef: seq<int>, byValue: seq<int>)
    requires |a| == |b| && Operators.DefinedOn(op, b)
    ensures byRef == byValue && |byValue| == |a|
    ensures forall i :: 0 <= i < |a| ==> byValue[i] == Operators.Apply(op, a[i], b[i])
  {
    byRef := ByRef(op, a, b);
    byValue := Operators.Assign(op, a, b);
  }
}
