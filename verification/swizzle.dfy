/**
 * Swizzling (`get2`, `get3`, `get4`) of the newer revision's three- and
 * four-component vectors: slot k of the result is the component the order
 * names at k. An order may name a component more than once; an order naming
 * a slot past the arity is a fatal index error.
 */
module Swizzle {
  import Lanes
  import Vec2
  import Vec3
  import Vec4

  function Vec3Get2<T>(v: Vec3.Vector3<T>, order: seq<nat>): (r: Vec2.Vector2<T>)
    requires |order| == 2 && Lanes.InRange(order, 3)
    ensures Vec2.Inner(r) == Lanes.Gather(Vec3.Elems(v), order)
  {
    Vec2.Vector2(Vec3.Index(v, order[0]), Vec3.Index(v, order[1]))
  }

  function Vec3Get3<T>(v: Vec3.Vector3<T>, order: seq<nat>): (r: Vec3.Vector3<T>)
    requires |order| == 3 && Lanes.InRange(order, 3)
    ensures Vec3.Elems(r) == Lanes.Gather(Vec3.Elems(v), order)
  {
    Vec3.New(Vec3.Index(v, order[0]), Vec3.Index(v, order[1]), Vec3.Index(v, order[2]))
  }

  function Vec3Get4<T>(v: Vec3.Vector3<T>, order: seq<nat>): (r: Vec4.Vector4<T>)
    requires |order| == 4 && Lanes.InRange(order, 3)
    ensures Vec4.Elems(r) == Lanes.Gather(Vec3.Elems(v), order)
  {
    Vec4.New(Vec3.Index(v, order[0]), Vec3.Index(v, order[1]), Vec3.Index(v, order[2]), Vec3.Index(v, order[3]))
  }

  function Vec4Get2<T>(v: Vec4.Vector4<T>, order: seq<nat>): (r: Vec2.Vector2<T>)
    requires |order| == 2 && Lanes.InRange(order, 4)
    ensures Vec2.Inner(r) == Lanes.Gather(Vec4.Elems(v), order)
  {
    Vec2.Vector2(Vec4.Index(v, order[0]), Vec4.Index(v, order[1]))
  }

  function Vec4Get3<T>(v: Vec4.Vector4<T>, order: seq<nat>): (r: Vec3.Vector3<T>)
    requires |order| == 3 && Lanes.InRange(order, 4)
    ensures Vec3.Elems(r) == Lanes.Gather(Vec4.Elems(v), order)
  {
    Vec3.New(Vec4.Index(v, order[0]), Vec4.Index(v, order[1]), Vec4.Index(v, order[2]))
  }

  function Vec4Get4<T>(v: Vec4.Vector4<T>, order: seq<nat>): (r: Vec4.Vector4<T>)
    requires |order| == 4 && Lanes.InRange(order, 4)
    ensures Vec4.Elems(r) == Lanes.Gather(Vec4.Elems(v), order)
  {
    Vec4.New(Vec4.Index(v, order[0]), Vec4.Index(v, order[1]), Vec4.Index(v, order[2]), Vec4.Index(v, order[3]))
  }

  /** The identity order gives the vector back, the order (2, 1, 0) reverses
      it and (i, i, i) repeats one component. */
  lemma Vec3Get3Orders<T>(v: Vec3.Vector3<T>, i: nat)
    requires i < 3
    ensures Vec3Get3(v, [0, 1, 2]) == v
    ensures Vec3Get3(v, [2, 1, 0]) == Vec3.Vector3(v.z, v.y, v.x)
    ensures Vec3Get3(v, [i, i, i]) == Vec3.Vector3(Vec3.Index(v, i), Vec3.Index(v, i), Vec3.Index(v, i))
  {
  }

  /** Swizzling a swizzle reads the original through the composed order. */
  lemma Vec3Get3Composes<T>(v: Vec3.Vector3<T>, outer: seq<nat>, inner: seq<nat>)
    requires |outer| == 3 && Lanes.InRange(outer, 3)
    requires |inner| == 3 && Lanes.InRange(inner, 3)
    ensures Lanes.InRange(Lanes.Gather(outer, inner), 3)
    ensures Vec3Get3(Vec3Get3(v, outer), inner) == Vec3Get3(v, Lanes.Gather(outer, inner))
  {
    Lanes.GatherComposes(Vec3.Elems(v), outer, inner);
    var lhs, rhs := Vec3Get3(Vec3Get3(v, outer), inner), Vec3Get3(v, Lanes.Gather(outer, inner));
    assert Vec3.Elems(lhs) == Vec3.Elems(rhs);
  }

  /** The identity order gives a four-component vector back. */
  lemma Vec4Get4Identity<T>(v: Vec4.Vector4<T>)
    ensures Vec4Get4(v, [0, 1, 2, 3]) == v
  {
  }

  /** Swizzling a swizzle reads the original through the composed order. */
  lemma Vec4Get4Composes<T>(v: Vec4.Vector4<T>, outer: seq<nat>, inner: seq<nat>)
    requires |outer| == 4 && Lanes.InRange(outer, 4)
    requires |inner| == 4 && Lanes.InRange(inner, 4)
    ensures Lanes.InRange(Lanes.Gather(outer, inner), 4)
    ensures Vec4Get4(Vec4Get4(v, outer), inner) == Vec4Get4(v, Lanes.Gather(outer, inner))
  {
    Lanes.GatherComposes(Vec4.Elems(v), outer, inner);
    var lhs, rhs := Vec4Get4(Vec4Get4(v, outer), inner), Vec4Get4(v, Lanes.Gather(outer, inner));
    assert Vec4.Elems(lhs) == Vec4.Elems(rhs);
  }
}
