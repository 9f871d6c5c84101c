/**
 * The `const fn` constructors `vec2`, `vec3`, `vec4`, which fill the named
 * fields in argument order.
 */
module Consts {
  import Vec2
  import Vec3
  import Vec4

  function Vec2Of<T>(f1: T, f2: T): (v: Vec2.Vector2<T>)
    ensures Vec2.Inner(v) == [f1, f2]
  {
    Vec2.Vector2(f1, f2)
  }

  function Vec3Of<T>(f1: T, f2: T, f3: T): (v: Vec3.Vector3<T>)
    ensures Vec3.Index(v, 0) == f1 && Vec3.Index(v, 1) == f2 && Vec3.Index(v, 2) == f3
  {
    Vec3.Vector3(f1, f2, f3)
  }

  function Vec4Of<T>(f1: T, f2: T, f3: T, f4: T): (v: Vec4.Vector4<T>)
    ensures Vec4.Elems(v) == [f1, f2, f3, f4]
  {
    Vec4.Vector4(f1, f2, f3, f4)
  }

  /** The const constructors agree with the `new` constructors. */
  lemma ConstsAgreeWithNew<T>(f1: T, f2: T, f3: T, f4: T)
    ensures Vec3Of(f1, f2, f3) == Vec3.New(f1, f2, f3)
    ensures Vec4Of(f1, f2, f3, f4) == Vec4.New(f1, f2, f3, f4)
  {
  }
}
