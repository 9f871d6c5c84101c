/**
 * The four-component vector of the newer revision: named fields `x`, `y`,
 * `z`, `w`, the constructor, the named constants, the index view, the axis
 * enum and the operators stamped from the templates.
 */
module Vec4 {
  import opened Elements
  import Lanes
  import Operators

  datatype Vector4<T> = Vector4(x: T, y: T, z: T, w: T)

  /** The index view: slots 0 to 3 are `x`, `y`, `z`, `w`. */
  function Elems<T>(v: Vector4<T>): (s: seq<T>)
    ensures |s| == 4 && s[0] == v.x && s[1] == v.y && s[2] == v.z && s[3] == v.w
  {
    [v.x, v.y, v.z, v.w]
  }

  function FromElems<T>(s: seq<T>): (v: Vector4<T>)
    requires |s| == 4
    ensures Elems(v) == s
  {
    Vector4(s[0], s[1], s[2], s[3])
  }

  /** `new(f1, f2, f3, f4)` fills `x`, `y`, `z`, `w` in that order. */
  function New<T>(f1: T, f2: T, f3: T, f4: T): (v: Vector4<T>)
    ensures Elems(v) == [f1, f2, f3, f4]
  {
    Vector4(f1, f2, f3, f4)
  }

  /** `Index`: slots 0 to 3; an index of 4 or more is a fatal error. */
  function Index<T>(v: Vector4<T>, i: nat): (r: T)
    requires i < 4
    ensures r == Elems(v)[i]
  {
    match i
    case 0 => v.x
    case 1 => v.y
    case 2 => v.z
    case 3 => v.w
  }

  /** `IndexMut`: a write through slot i replaces that component only. */
  function IndexMut<T>(v: Vector4<T>, i: nat, e: T): (r: Vector4<T>)
    requires i < 4
    ensures Elems(r) == Elems(v)[i := e]
  {
    match i
    case 0 => v.(x := e)
    case 1 => v.(y := e)
    case 2 => v.(z := e)
    case 3 => v.(w := e)
  }

  /** Reading after a write: the written slot yields the new value, every
      other slot its old one. */
  lemma ReadAfterWrite<T>(v: Vector4<T>, i: nat, j: nat, e: T)
    requires i < 4 && j < 4
    ensures Index(IndexMut(v, i, e), j) == if i == j then e else Index(v, j)
  {
  }

  function Zero<T>(st: States<T>): Vector4<T>
  {
    Vector4(st.off, st.off, st.off, st.off)
  }

  function X<T>(st: States<T>): Vector4<T>
  {
    Vector4(st.on, st.off, st.off, st.off)
  }

  function Y<T>(st: States<T>): Vector4<T>
  {
    Vector4(st.off, st.on, st.off, st.off)
  }

  function Z<T>(st: States<T>): Vector4<T>
  {
    Vector4(st.off, st.off, st.on, st.off)
  }

  function W<T>(st: States<T>): Vector4<T>
  {
    Vector4(st.off, st.off, st.off, st.on)
  }

  function One<T>(st: States<T>): Vector4<T>
  {
    Vector4(st.on, st.on, st.on, st.on)
  }

  /** `Default` fills every slot with the element's default, which for the
      five element types is their `off` value. */
  function Default<T>(st: States<T>): (v: Vector4<T>)
    ensures Elems(v) == Lanes.Fill(4, st.off)
  {
    Vector4(st.off, st.off, st.off, st.off)
  }

  /** X, Y, Z and W are the unit vectors of slots 0 to 3; ZERO and ONE are
      uniform. */
  lemma Constants<T>(st: States<T>)
    ensures Elems(Zero(st)) == Lanes.Fill(4, st.off)
    ensures Elems(One(st)) == Lanes.Fill(4, st.on)
    ensures Elems(X(st)) == Lanes.Unit(st, 4, 0)
    ensures Elems(Y(st)) == Lanes.Unit(st, 4, 1)
    ensures Elems(Z(st)) == Lanes.Unit(st, 4, 2)
    ensures Elems(W(st)) == Lanes.Unit(st, 4, 3)
  {
  }

  datatype Vec4Axis = XAxis | YAxis | ZAxis | WAxis

  function AxisSlot(a: Vec4Axis): (i: nat)
    ensures i < 4
  {
    match a
    case XAxis => 0
    case YAxis => 1
    case ZAxis => 2
    case WAxis => 3
  }

  /** `get_default_axis`: the unit vector of the axis' slot. */
  function DefaultAxis<T>(st: States<T>, a: Vec4Axis): (v: Vector4<T>)
    ensures Elems(v) == Lanes.Unit(st, 4, AxisSlot(a))
  {
    match a
    case XAxis => X(st)
    case YAxis => Y(st)
    case ZAxis => Z(st)
    case WAxis => W(st)
  }

  /** `get_axis`: the component at the axis' slot. */
  function GetAxis<T>(v: Vector4<T>, a: Vec4Axis): (r: T)
    ensures r == Index(v, AxisSlot(a))
  {
    match a
    case XAxis => v.x
    case YAxis => v.y
    case ZAxis => v.z
    case WAxis => v.w
  }

  /** Reading an axis of the default vector for that axis gives `on`, and any
      other axis `off`. */
  lemma AxisOfDefaultAxis<T>(st: States<T>, a: Vec4Axis, b: Vec4Axis)
    ensures GetAxis(DefaultAxis(st, a), b) == if a == b then st.on else st.off
  {
  }

  /** The templated `a ⊕ b` and `a ⊕= b` on four slots. */
  method Combine(op: Operators.BinOp, a: Vector4<int>, b: Vector4<int>) returns (r: Vector4<int>)
    requires Operators.DefinedOn(op, Elems(b))
    ensures forall i :: 0 <= i < 4 ==> Index(r, i) == Operators.Apply(op, Index(a, i), Index(b, i))
    ensures Elems(r) == Operators.Binary(op, Elems(a), Elems(b))
  {
    var out := Operators.Assign(op, Elems(a), Elems(b));
    r := FromElems(out);
  }

  /** The templated `v ⊕ s` and `v ⊕= s` on four slots. */
  method CombineScalar(op: Operators.BinOp, v: Vector4<int>, s: int) returns (r: Vector4<int>)
    requires Operators.Defined(op, s)
    ensures forall i :: 0 <= i < 4 ==> Index(r, i) == Operators.Apply(op, Index(v, i), s)
    ensures Elems(r) == Operators.Scalar(op, Elems(v), s)
  {
    var out := Operators.AssignScalar(op, Elems(v), s);
    r := FromElems(out);
  }
}
