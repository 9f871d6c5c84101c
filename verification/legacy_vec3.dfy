/**
 * The older revision's array-backed three-component vector: `data` is a
 * sequence of length 3 with the named constants below.
 */
module LegacyVec3 {
  import opened Elements
  import Lanes

  function Zero<T>(st: States<T>): seq<T>
  {
    [st.off, st.off, st.off]
  }

  function X<T>(st: States<T>): seq<T>
  {
    [st.on, st.off, st.off]
  }

  function Y<T>(st: States<T>): seq<T>
  {
    [st.off, st.on, st.off]
  }

  function Z<T>(st: States<T>): seq<T>
  {
    [st.off, st.off, st.on]
  }

  function One<T>(st: States<T>): seq<T>
  {
    [st.on, st.on, st.on]
  }

  /** `new(f1, f2, f3)` fills slots 0, 1 and 2 in order. */
  function New<T>(f1: T, f2: T, f3: T): (v: seq<T>)
    ensures |v| == 3 && v[0] == f1 && v[1] == f2 && v[2] == f3
  {
    [f1, f2, f3]
  }

  /** X, Y and Z carry `on` exactly at their own slot; ZERO and ONE are
      uniform. */
  lemma Constants<T>(st: States<T>)
    ensures X(st) == Lanes.Unit(st, 3, 0)
    ensures Y(st) == Lanes.Unit(st, 3, 1)
    ensures Z(st) == Lanes.Unit(st, 3, 2)
    ensures Zero(st) == Lanes.Fill(3, st.off) && One(st) == Lanes.Fill(3, st.on)
  {
  }
}
