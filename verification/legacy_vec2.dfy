/**
 * The older revision's array-backed two-component vector: `data` is a
 * sequence of length 2. Its axis constants are written wrong: `X` repeats
 * `ONE` and `Y` holds what `X` should.
 */
module LegacyVec2 {
  import opened Elements
  import Lanes

  function Zero<T>(st: States<T>): seq<T>
  {
    [st.off, st.off]
  }

  function One<T>(st: States<T>): seq<T>
  {
    [st.on, st.on]
  }

  /** `X` as written: `on` in both slots. */
  function XAsWritten<T>(st: States<T>): seq<T>
  {
    [st.on, st.on]
  }

  /** `Y` as written: `on` in slot 0, `off` in slot 1. */
  function YAsWritten<T>(st: States<T>): seq<T>
  {
    [st.on, st.off]
  }

  /** The axis constants as named: `on` in their own slot only. */
  function X<T>(st: States<T>): seq<T>
  {
    [st.on, st.off]
  }

  function Y<T>(st: States<T>): seq<T>
  {
    [st.off, st.on]
  }

  /** `new(f1, f2)`. */
  function New<T>(f1: T, f2: T): (v: seq<T>)
    ensures |v| == 2 && GetX(v) == f1 && GetY(v) == f2
  {
    [f1, f2]
  }

  /** `x()`: component 0. */
  function GetX<T>(v: seq<T>): T
    requires |v| == 2
  {
    v[0]
  }

  /** `y()`: component 1. */
  function GetY<T>(v: seq<T>): T
    requires |v| == 2
  {
    v[1]
  }

  /** Whenever `off` and `on` differ, the written `X` is `ONE` rather than a
      unit vector, and the written `Y` is the unit vector of slot 0, that is
      the intended `X`. */
  lemma AxesAsWrittenCollide<T>(st: States<T>)
    requires st.off != st.on
    ensures XAsWritten(st) == One(st) && XAsWritten(st) != Lanes.Unit(st, 2, 0)
    ensures YAsWritten(st) == X(st) && YAsWritten(st) != Lanes.Unit(st, 2, 1)
    ensures GetY(XAsWritten(I32)) == 1 && GetY(YAsWritten(I32)) == 0
  {
    assert XAsWritten(st)[1] != Lanes.Unit(st, 2, 0)[1];
    assert YAsWritten(st)[0] != Lanes.Unit(st, 2, 1)[0];
  }

  /** The intended constants: `X` and `Y` are the unit vectors of slots 0 and
      1, and `ZERO` and `ONE` are uniform. */
  lemma AxesAreUnits<T>(st: States<T>)
    ensures X(st) == Lanes.Unit(st, 2, 0) && Y(st) == Lanes.Unit(st, 2, 1)
    ensures Zero(st) == Lanes.Fill(2, st.off) && One(st) == Lanes.Fill(2, st.on)
    ensures GetX(X(st)) == st.on && GetY(X(st)) == st.off
    ensures GetX(Y(st)) == st.off && GetY(Y(st)) == st.on
  {
  }
}
