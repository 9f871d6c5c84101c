/**
 * The quaternion of the newer revision: four components kept in a `Vector4`,
 * with the identity rotation as its only constant.
 */
module Quat {
  import opened Elements
  import Vec4

  datatype Quaternion<T> = Quaternion(data: Vec4.Vector4<T>)

  /** `IDENTITY`: the data is the vector W. */
  function Identity<T>(st: States<T>): (q: Quaternion<T>)
    ensures q.data == Vec4.W(st)
  {
    Quaternion(Vec4.W(st))
  }

  /** `Default` is `IDENTITY`. */
  function Default<T>(st: States<T>): (q: Quaternion<T>)
    ensures q == Identity(st)
  {
    Identity(st)
  }

  /** The identity rotation has a zero vector part and a unit scalar part,
      for floats (0, 0, 0, 1). */
  lemma IdentityComponents<T>(st: States<T>)
    ensures Vec4.Elems(Identity(st).data) == [st.off, st.off, st.off, st.on]
    ensures Vec4.Elems(Default(F32).data) == [0.0, 0.0, 0.0, 1.0]
  {
  }
}
