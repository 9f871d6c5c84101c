/**
 * Element types and their identity values.
 *
 * Every element type a vector can hold supplies two identity values through the
 * `DefaultStates` capability: `off` (zero, or `false`) and `on` (one, or `true`).
 * The fixed-width integers i32 and i64 are modelled as unbounded `int`, the
 * floating-point types f32 and f64 as exact `real`; overflow, rounding and IEEE
 * special values are not modelled.
 */
module Elements {

  /** The two identity values of one element type. Both revisions give the
      five element types the same pairs. */
  datatype States<T> = States(off: T, on: T)

  const I32: States<int> := States(0, 1)
  const I64: States<int> := States(0, 1)
  const F32: States<real> := States(0.0, 1.0)
  const F64: States<real> := States(0.0, 1.0)
  const Boolean: States<bool> := States(false, true)

  /** i32 and i64: `off` is 0 and `on` is 1, so they are the additive and the
      multiplicative identity of every integer `x`, and they differ. */
  lemma IntegerStates(x: int)
    ensures I32.off == 0 && I32.on == 1
    ensures I64.off == 0 && I64.on == 1
    ensures x + I32.off == x && x * I32.on == x && x * I32.off == 0
    ensures x + I64.off == x && x * I64.on == x && x * I64.off == 0
    ensures I32.off != I32.on && I64.off != I64.on
  {
  }

  /** f32 and f64: `off` is 0.0 and `on` is 1.0, the additive and multiplicative
      identities, and they differ. */
  lemma FloatStates(x: real)
    ensures F32.off == 0.0 && F32.on == 1.0
    ensures F64.off == 0.0 && F64.on == 1.0
    ensures x + F32.off == x && x * F32.on == x && x * F32.off == 0.0
    ensures x + F64.off == x && x * F64.on == x && x * F64.off == 0.0
    ensures F32.off != F32.on && F64.off != F64.on
  {
  }

  /** bool: `off` is `false` and `on` is `true`; they play the identity role
      positionally, as the neutral elements of `||` and `&&`. */
  lemma BoolStates(b: bool)
    ensures Boolean.off == false && Boolean.on == true
    ensures (b || Boolean.off) == b && (b && Boolean.on) == b
    ensures Boolean.off != Boolean.on
  {
  }

  function Abs(x: int): nat
  {
    if x < 0 then -x else x
  }

  /** Integer `/` as Rust defines it: the quotient is truncated toward zero.
      Dividing by zero panics, hence the precondition. */
  function TruncDiv(x: int, y: int): int
    requires y != 0
  {
    var q := Abs(x) / Abs(y);
    if (x < 0) == (y < 0) then q else -q
  }

  /** Integer `%` as Rust defines it: what is left after the truncated
      quotient, so it carries the sign of the dividend. */
  function TruncRem(x: int, y: int): int
    requires y != 0
  {
    x - y * TruncDiv(x, y)
  }

  /** Negating one factor negates the product. */
  lemma NegatedFactor(a: int, b: int)
    ensures (-a) * b == -(a * b) && a * (-b) == -(a * b) && (-a) * (-b) == a * b
  {
  }

  /** The truncated remainder is the remainder of the magnitudes, carrying the
      dividend's sign. */
  lemma RemainderBySign(x: int, y: int)
    requires y != 0
    ensures TruncRem(x, y) == if x < 0 then -(Abs(x) % Abs(y)) else Abs(x) % Abs(y)
  {
    var ax: int, ay: int := Abs(x), Abs(y);
    var m, k := ax / ay, ax % ay;
    var p := ay * m;
    assert ax == p + k;
    NegatedFactor(ay, m);
    var q := TruncDiv(x, y);
    if y > 0 {
      assert y == ay;
      if x < 0 {
        assert q == -m && y * q == -p;
      } else {
        assert q == m && y * q == p;
      }
    } else {
      assert y == -ay;
      if x < 0 {
        assert q == m && y * q == -p;
      } else {
        assert q == -m && y * q == p;
      }
    }
  }

  /** The truncated quotient's magnitude is the floor of the magnitudes'
      ratio. */
  lemma QuotientMagnitude(x: int, y: int)
    requires y != 0
    ensures Abs(TruncDiv(x, y)) == Abs(x) / Abs(y)
  {
    var m := Abs(x) / Abs(y);
    assert 0 <= m;
  }

  /** The truncated remainder is smaller than the divisor in magnitude, and it
      is zero or has the dividend's sign. */
  lemma RemainderBounds(x: int, y: int)
    requires y != 0
    ensures Abs(TruncRem(x, y)) < Abs(y)
    ensures TruncRem(x, y) == 0 || ((TruncRem(x, y) < 0) == (x < 0))
  {
    var k := Abs(x) % Abs(y);
    assert 0 <= k < Abs(y);
    RemainderBySign(x, y);
  }

  /** The truncating quotient and remainder recompose the dividend, the
      remainder is smaller than the divisor in magnitude, it is zero or has the
      dividend's sign, and the quotient's magnitude is the floor of the
      magnitudes' ratio. */
  lemma TruncDivRem(x: int, y: int)
    requires y != 0
    ensures x == y * TruncDiv(x, y) + TruncRem(x, y)
    ensures Abs(TruncRem(x, y)) < Abs(y)
    ensures TruncRem(x, y) == 0 || ((TruncRem(x, y) < 0) == (x < 0))
    ensures Abs(TruncDiv(x, y)) == Abs(x) / Abs(y)
  {
    RemainderBounds(x, y);
    QuotientMagnitude(x, y);
  }
}
