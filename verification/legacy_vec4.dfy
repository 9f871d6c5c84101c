/**
 * The older revision's array-backed four-component vector: `data` is a
 * sequence of length 4. Its arithmetic is written out by hand rather than
 * stamped from the templates, and its `/=` multiplies.
 */
module LegacyVec4 {
  import opened Elements
  import Lanes
  import Operators

  function Zero<T>(st: States<T>): seq<T>
  {
    [st.off, st.off, st.off, st.off]
  }

  function X<T>(st: States<T>): seq<T>
  {
    [st.on, st.off, st.off, st.off]
  }

  function Y<T>(st: States<T>): seq<T>
  {
    [st.off, st.on, st.off, st.off]
  }

  function Z<T>(st: States<T>): seq<T>
  {
    [st.off, st.off, st.on, st.off]
  }

  function W<T>(st: States<T>): seq<T>
  {
    [st.off, st.off, st.off, st.on]
  }

  function One<T>(st: States<T>): seq<T>
  {
    [st.on, st.on, st.on, st.on]
  }

  /** `new(f1, f2, f3, f4)` fills slots 0 to 3 in order. */
  function New<T>(f1: T, f2: T, f3: T, f4: T): (v: seq<T>)
    ensures |v| == 4 && v[0] == f1 && v[1] == f2 && v[2] == f3 && v[3] == f4
  {
    [f1, f2, f3, f4]
  }

  /** X, Y, Z and W carry `on` exactly at their own slot; ZERO and ONE are
      uniform. */
  lemma Constants<T>(st: States<T>)
    ensures X(st) == Lanes.Unit(st, 4, 0)
    ensures Y(st) == Lanes.Unit(st, 4, 1)
    ensures Z(st) == Lanes.Unit(st, 4, 2)
    ensures W(st) == Lanes.Unit(st, 4, 3)
    ensures Zero(st) == Lanes.Fill(4, st.off) && One(st) == Lanes.Fill(4, st.on)
  {
  }

  /** `a + b`, `a - b`, `a * b` and `a / b`, and `+=`, `-=` and `*=`: one
      loop over the four slots of the receiver, so every slot is combined
      with its partner alone. */
  method Operate(op: Operators.BinOp, a: seq<int>, b: seq<int>) returns (r: seq<int>)
    requires |a| == 4 && |b| == 4 && !op.Percent? && Operators.DefinedOn(op, b)
    ensures |r| == 4
    ensures forall i :: 0 <= i < 4 ==> r[i] == Operators.Apply(op, a[i], b[i])
    ensures r == Operators.Binary(op, a, b)
  {
    r := Operators.Assign(op, a, b);
  }

  /** `a /= b` as written: the loop multiplies, so a zero divisor does not
      even panic. */
  method DivAssignAsWritten(a: seq<int>, b: seq<int>) returns (r: seq<int>)
    requires |a| == 4 && |b| == 4
    ensures r == Operators.Binary(Operators.Times, a, b)
    ensures forall i :: 0 <= i < 4 ==> r[i] == a[i] * b[i]
  {
    r := Operators.Assign(Operators.Times, a, b);
  }

  /** `a /= b` as the operator's name promises: it leaves `a / b`. */
  method DivAssign(a: seq<int>, b: seq<int>) returns (r: seq<int>)
    requires |a| == 4 && |b| == 4 && Operators.DefinedOn(Operators.Slash, b)
    ensures r == Operators.Binary(Operators.Slash, a, b)
    ensures forall i :: 0 <= i < 4 ==> r[i] == TruncDiv(a[i], b[i])
  {
    r := Operate(Operators.Slash, a, b);
  }

  /** The product of two slots is larger in magnitude than their quotient
      whenever the dividend is nonzero and the divisor is 2 or more in
      magnitude. */
  lemma ProductExceedsQuotient(x: int, y: int)
    requires x != 0 && Abs(y) >= 2
    ensures Abs(x * y) > Abs(TruncDiv(x, y))
  {
    TruncDivRem(x, y);
    AbsOfProduct(x, y);
    ScaledAtLeastTwice(Abs(x), Abs(y));
    QuotientAtMost(Abs(x), Abs(y));
  }

  lemma AbsOfProduct(x: int, y: int)
    ensures Abs(x * y) == Abs(x) * Abs(y)
  {
    if x < 0 && y < 0 {
      assert x * y == (-x) * (-y);
    } else if x < 0 {
      assert -(x * y) == (-x) * y;
    } else if y < 0 {
      assert -(x * y) == x * (-y);
    }
  }

  lemma ScaledAtLeastTwice(n: nat, d: nat)
    requires d >= 2
    ensures n * d >= 2 * n
  {
    assert n * d == n * 2 + n * (d - 2);
  }

  lemma QuotientAtMost(n: nat, d: nat)
    requires d >= 1
    ensures n / d <= n
  {
    assert n == d * (n / d) + n % d;
  }

  /** The written `/=` and the intended one disagree on every slot whose
      dividend is nonzero and whose divisor is 2 or more in magnitude: for
      (6, 6, 6, 6) and (2, 2, 2, 2) the written one leaves 12s, not 3s. */
  lemma DivAssignAsWrittenDisagrees(a: seq<int>, b: seq<int>, i: nat)
    requires |a| == 4 && |b| == 4 && Operators.DefinedOn(Operators.Slash, b)
    requires i < 4 && a[i] != 0 && Abs(b[i]) >= 2
    ensures Operators.Binary(Operators.Times, a, b) != Operators.Binary(Operators.Slash, a, b)
    ensures Operators.Binary(Operators.Times, [6, 6, 6, 6], [2, 2, 2, 2]) == [12, 12, 12, 12]
    ensures Operators.Binary(Operators.Slash, [6, 6, 6, 6], [2, 2, 2, 2]) == [3, 3, 3, 3]
  {
    ProductExceedsQuotient(a[i], b[i]);
    assert Operators.Binary(Operators.Times, a, b)[i] != Operators.Binary(Operators.Slash, a, b)[i];
  }
}
