/**
 * The three-component vector of the newer revision: named fields `x`, `y`,
 * `z`, an index view over them, the named constants, the axis enum and the
 * cross product. Its arithmetic operators are stamped from the operator
 * templates and are lifted here through the index view.
 */
module Vec3 {
  import opened Elements
  import Lanes
  import Operators
  import FloatOps

  datatype Vector3<T> = Vector3(x: T, y: T, z: T)

  /** The index view: slot 0 is `x`, 1 is `y`, 2 is `z`. */
  function Elems<T>(v: Vector3<T>): (s: seq<T>)
    ensures |s| == 3 && s[0] == v.x && s[1] == v.y && s[2] == v.z
  {
    [v.x, v.y, v.z]
  }

  function FromElems<T>(s: seq<T>): (v: Vector3<T>)
    requires |s| == 3
    ensures Elems(v) == s
  {
    Vector3(s[0], s[1], s[2])
  }

  /** `Index`: slots 0, 1 and 2 are `x`, `y` and `z`; any other index is a
      fatal error, hence the precondition. */
  function Index<T>(v: Vector3<T>, i: nat): (r: T)
    requires i < 3
    ensures r == Elems(v)[i]
  {
    match i
    case 0 => v.x
    case 1 => v.y
    case 2 => v.z
  }

  /** `IndexMut`: a write through slot i replaces that field only. */
  function IndexMut<T>(v: Vector3<T>, i: nat, e: T): (r: Vector3<T>)
    requires i < 3
    ensures Elems(r) == Elems(v)[i := e]
  {
    match i
    case 0 => v.(x := e)
    case 1 => v.(y := e)
    case 2 => v.(z := e)
  }

  /** Reading after a write: the written slot yields the new value, every
      other slot its old one. */
  lemma ReadAfterWrite<T>(v: Vector3<T>, i: nat, j: nat, e: T)
    requires i < 3 && j < 3
    ensures Index(IndexMut(v, i, e), j) == if i == j then e else Index(v, j)
  {
  }

  /** `new(f1, f2, f3)`. */
  function New<T>(f1: T, f2: T, f3: T): (v: Vector3<T>)
    ensures Index(v, 0) == f1 && Index(v, 1) == f2 && Index(v, 2) == f3
  {
    Vector3(f1, f2, f3)
  }

  function Zero<T>(st: States<T>): Vector3<T>
  {
    Vector3(st.off, st.off, st.off)
  }

  function X<T>(st: States<T>): Vector3<T>
  {
    Vector3(st.on, st.off, st.off)
  }

  function Y<T>(st: States<T>): Vector3<T>
  {
    Vector3(st.off, st.on, st.off)
  }

  function Z<T>(st: States<T>): Vector3<T>
  {
    Vector3(st.off, st.off, st.on)
  }

  function One<T>(st: States<T>): Vector3<T>
  {
    Vector3(st.on, st.on, st.on)
  }

  /** `Default` is `ZERO`. */
  function Default<T>(st: States<T>): (v: Vector3<T>)
    ensures Elems(v) == Lanes.Fill(3, st.off)
  {
    Zero(st)
  }

  /** X, Y and Z are the unit vectors of slots 0, 1 and 2; ZERO and ONE are
      uniform. */
  lemma Constants<T>(st: States<T>)
    ensures Elems(Zero(st)) == Lanes.Fill(3, st.off)
    ensures Elems(One(st)) == Lanes.Fill(3, st.on)
    ensures Elems(X(st)) == Lanes.Unit(st, 3, 0)
    ensures Elems(Y(st)) == Lanes.Unit(st, 3, 1)
    ensures Elems(Z(st)) == Lanes.Unit(st, 3, 2)
  {
  }

  datatype Vec3Axis = XAxis | YAxis | ZAxis

  /** The slot an axis names. */
  function AxisSlot(a: Vec3Axis): (i: nat)
    ensures i < 3
  {
    match a
    case XAxis => 0
    case YAxis => 1
    case ZAxis => 2
  }

  /** `get_default_axis`: the constant named after the axis, which is the
      unit vector of the axis' slot. */
  function DefaultAxis<T>(st: States<T>, a: Vec3Axis): (v: Vector3<T>)
    ensures Elems(v) == Lanes.Unit(st, 3, AxisSlot(a))
  {
    match a
    case XAxis => X(st)
    case YAxis => Y(st)
    case ZAxis => Z(st)
  }

  /** The templated `a ⊕ b` and `a ⊕= b` on three slots. */
  method Combine(op: Operators.BinOp, a: Vector3<int>, b: Vector3<int>) returns (r: Vector3<int>)
    requires Operators.DefinedOn(op, Elems(b))
    ensures forall i :: 0 <= i < 3 ==> Index(r, i) == Operators.Apply(op, Index(a, i), Index(b, i))
    ensures Elems(r) == Operators.Binary(op, Elems(a), Elems(b))
  {
    var out := Operators.Assign(op, Elems(a), Elems(b));
    r := FromElems(out);
  }

  /** The templated `v ⊕ s` and `v ⊕= s` on three slots. */
  method CombineScalar(op: Operators.BinOp, v: Vector3<int>, s: int) returns (r: Vector3<int>)
    requires Operators.Defined(op, s)
    ensures forall i :: 0 <= i < 3 ==> Index(r, i) == Operators.Apply(op, Index(v, i), s)
    ensures Elems(r) == Operators.Scalar(op, Elems(v), s)
  {
    var out := Operators.AssignScalar(op, Elems(v), s);
    r := FromElems(out);
  }

  /** `-v` on three slots, read as the slot-wise negation of the `setup_una`
      template; it gives `-ONE == (-1, -1, -1)` as the operator test expects. */
  method Negate(v: Vector3<int>) returns (r: Vector3<int>)
    ensures r == Vector3(-v.x, -v.y, -v.z)
    ensures Elems(r) == Operators.Neg(Elems(v))
  {
    var out := Operators.NegByValue(Elems(v));
    r := FromElems(out);
  }

  /** The dot product of the shared float algebra, on three slots. */
  function Dot(a: Vector3<real>, b: Vector3<real>): (d: real)
    ensures d == a.x * b.x + a.y * b.y + a.z * b.z
  {
    FloatOps.SumOfProductsOfThree(Elems(a), Elems(b));
    FloatOps.SumOfProducts(Elems(a), Elems(b))
  }

  /** `cross`: the vector orthogonal to both operands, `(a1·b2 − a2·b1,
      a2·b0 − a0·b2, a0·b1 − a1·b0)`. */
  function Cross(a: Vector3<real>, b: Vector3<real>): (r: Vector3<real>)
    ensures Dot(a, r) == 0.0 && Dot(b, r) == 0.0
  {
    var r := Vector3(a.y * b.z - a.z * b.y, a.z * b.x - a.x * b.z, a.x * b.y - a.y * b.x);
    CrossOrthogonal(a, b, r);
    r
  }

  /** The polynomial identity behind orthogonality. */
  lemma CrossOrthogonal(a: Vector3<real>, b: Vector3<real>, r: Vector3<real>)
    requires r == Vector3(a.y * b.z - a.z * b.y, a.z * b.x - a.x * b.z, a.x * b.y - a.y * b.x)
    ensures Dot(a, r) == 0.0 && Dot(b, r) == 0.0
  {
    assert a.x * (a.y * b.z - a.z * b.y) + a.y * (a.z * b.x - a.x * b.z) + a.z * (a.x * b.y - a.y * b.x) == 0.0;
    assert b.x * (a.y * b.z - a.z * b.y) + b.y * (a.z * b.x - a.x * b.z) + b.z * (a.x * b.y - a.y * b.x) == 0.0;
  }

  /** The cross product is anticommutative, so a vector crossed with itself
      is ZERO. */
  lemma CrossAnticommutes(a: Vector3<real>, b: Vector3<real>)
    ensures Cross(b, a) == Vector3(-Cross(a, b).x, -Cross(a, b).y, -Cross(a, b).z)
    ensures Cross(a, a) == Zero(F32)
  {
  }
}
