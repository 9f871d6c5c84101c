/**
 * The 4×4 matrix of the newer revision: four `Vector4` rows read either row
 * by row (`get_vec`) or through one flat index `k`, which addresses row
 * `k / 4` and column `k % 4`.
 */
module Matrix {
  import opened Elements
  import Lanes
  import Vec4

  datatype Matrix4x4<T> = Matrix4x4(r0: Vec4.Vector4<T>, r1: Vec4.Vector4<T>, r2: Vec4.Vector4<T>, r3: Vec4.Vector4<T>)

  /** `get_vec(n)`: row n, unchanged; n of 4 or more is a fatal error. */
  function Row<T>(m: Matrix4x4<T>, n: nat): (v: Vec4.Vector4<T>)
    requires n < 4
    ensures v == [m.r0, m.r1, m.r2, m.r3][n]
  {
    match n
    case 0 => m.r0
    case 1 => m.r1
    case 2 => m.r2
    case 3 => m.r3
  }

  /** The entry in row r, column c. */
  function Entry<T>(m: Matrix4x4<T>, r: nat, c: nat): T
    requires r < 4 && c < 4
  {
    Vec4.Index(Row(m, r), c)
  }

  /** Two matrices with the same sixteen entries are equal. */
  lemma EntriesDetermine<T>(a: Matrix4x4<T>, b: Matrix4x4<T>)
    requires forall r, c :: 0 <= r < 4 && 0 <= c < 4 ==> Entry(a, r, c) == Entry(b, r, c)
    ensures a == b
  {
    forall r | 0 <= r < 4
      ensures Row(a, r) == Row(b, r)
    {
      assert Entry(a, r, 0) == Entry(b, r, 0) && Entry(a, r, 1) == Entry(b, r, 1);
      assert Entry(a, r, 2) == Entry(b, r, 2) && Entry(a, r, 3) == Entry(b, r, 3);
      assert Vec4.Elems(Row(a, r)) == Vec4.Elems(Row(b, r));
    }
    assert Row(a, 0) == Row(b, 0) && Row(a, 1) == Row(b, 1);
    assert Row(a, 2) == Row(b, 2) && Row(a, 3) == Row(b, 3);
  }

  /** A flat index below 16 splits into a row below 4 and a column below 4,
      and that split is the only one. */
  lemma FlatSplit(k: nat, r: nat, c: nat)
    requires k < 16 && r < 4 && c < 4
    ensures k / 4 < 4 && k % 4 < 4 && k == k % 4 + (k / 4) * 4
    ensures k == c + r * 4 <==> r == k / 4 && c == k % 4
  {
  }

  /** `Index`: entry k of the flat order, k of 16 or more being a fatal
      error. */
  function Index<T>(m: Matrix4x4<T>, k: nat): T
    requires k < 16
  {
    FlatSplit(k, 0, 0);
    Vec4.Index(Row(m, k / 4), k % 4)
  }

  /** The flat index `c + 4r` reads row r, column c. */
  lemma IndexAt<T>(m: Matrix4x4<T>, r: nat, c: nat)
    requires r < 4 && c < 4
    ensures Index(m, c + r * 4) == Entry(m, r, c)
  {
    FlatSplit(c + r * 4, r, c);
  }

  /** Replaces row n. */
  function SetRow<T>(m: Matrix4x4<T>, n: nat, v: Vec4.Vector4<T>): Matrix4x4<T>
    requires n < 4
  {
    match n
    case 0 => m.(r0 := v)
    case 1 => m.(r1 := v)
    case 2 => m.(r2 := v)
    case 3 => m.(r3 := v)
  }

  /** `IndexMut`: a write through flat index k changes the entry at row k / 4,
      column k % 4, and no other. */
  function IndexMut<T>(m: Matrix4x4<T>, k: nat, e: T): (res: Matrix4x4<T>)
    requires k < 16
    ensures forall r, c :: 0 <= r < 4 && 0 <= c < 4 ==>
      Entry(res, r, c) == if c + r * 4 == k then e else Entry(m, r, c)
  {
    FlatSplit(k, 0, 0);
    var n := k / 4;
    var res := SetRow(m, n, Vec4.IndexMut(Row(m, n), k % 4, e));
    assert forall r, c :: 0 <= r < 4 && 0 <= c < 4 ==>
      Entry(res, r, c) == if c + r * 4 == k then e else Entry(m, r, c) by {
      forall r, c | 0 <= r < 4 && 0 <= c < 4
        ensures Entry(res, r, c) == if c + r * 4 == k then e else Entry(m, r, c)
      {
        FlatSplit(k, r, c);
      }
    }
    res
  }

  /** `IDENTITY`: the rows are X, Y, Z and W, so an entry is `on` exactly on
      the diagonal. */
  function Identity<T>(st: States<T>): (m: Matrix4x4<T>)
    ensures forall r, c :: 0 <= r < 4 && 0 <= c < 4 ==> Entry(m, r, c) == if r == c then st.on else st.off
  {
    Matrix4x4(Vec4.X(st), Vec4.Y(st), Vec4.Z(st), Vec4.W(st))
  }

  /** `Default` is `IDENTITY`: row n is the unit vector of slot n. */
  function Default<T>(st: States<T>): (m: Matrix4x4<T>)
    ensures forall n :: 0 <= n < 4 ==> Vec4.Elems(Row(m, n)) == Lanes.Unit(st, 4, n)
  {
    Identity(st)
  }

  /** The transpose: row n is column n of m. */
  function Transposition<T>(m: Matrix4x4<T>): (t: Matrix4x4<T>)
    ensures forall r, c :: 0 <= r < 4 && 0 <= c < 4 ==> Entry(t, r, c) == Entry(m, c, r)
  {
    Matrix4x4(
      Vec4.Vector4(m.r0.x, m.r1.x, m.r2.x, m.r3.x),
      Vec4.Vector4(m.r0.y, m.r1.y, m.r2.y, m.r3.y),
      Vec4.Vector4(m.r0.z, m.r1.z, m.r2.z, m.r3.z),
      Vec4.Vector4(m.r0.w, m.r1.w, m.r2.w, m.r3.w))
  }

  /** In flat terms, entry `x + 4y` of the transpose is entry `y + 4x`. */
  lemma TranspositionFlat<T>(m: Matrix4x4<T>, x: nat, y: nat)
    requires x < 4 && y < 4
    ensures Index(Transposition(m), x + y * 4) == Index(m, y + x * 4)
  {
    IndexAt(Transposition(m), y, x);
    IndexAt(m, x, y);
  }

  /** `transposed`: a copy of `IDENTITY` whose entry `x + 4y` is overwritten
      with entry `y + 4x` of the receiver, for every column x and row y. */
  method Transposed<T>(m: Matrix4x4<T>, st: States<T>) returns (out: Matrix4x4<T>)
    ensures forall r, c :: 0 <= r < 4 && 0 <= c < 4 ==> Entry(out, r, c) == Entry(m, c, r)
    ensures out == Transposition(m)
  {
    out := Identity(st);
    for x := 0 to 4
      invariant forall r, c :: 0 <= r < 4 && 0 <= c < 4 ==>
        Entry(out, r, c) == if c < x then Entry(m, c, r) else Entry(Identity(st), r, c)
    {
      for y := 0 to 4
        invariant forall r, c :: 0 <= r < 4 && 0 <= c < 4 ==>
          Entry(out, r, c) == if c < x || (c == x && r < y) then Entry(m, c, r) else Entry(Identity(st), r, c)
      {
        IndexAt(m, x, y);
        out := IndexMut(out, x + y * 4, Index(m, y + x * 4));
      }
    }
    EntriesDetermine(out, Transposition(m));
  }

  /** `transpose`: the receiver becomes its own `transposed()`, so its row n
      holds what was column n. */
  method Transpose<T>(m: Matrix4x4<T>, st: States<T>) returns (r: Matrix4x4<T>)
    ensures r == Transposition(m)
    ensures forall n :: 0 <= n < 4 ==> Vec4.Elems(Row(r, n)) == [Entry(m, 0, n), Entry(m, 1, n), Entry(m, 2, n), Entry(m, 3, n)]
  {
    r := Transposed(m, st);
  }

  /** Transposing twice restores the matrix. */
  lemma TranspositionInvolution<T>(m: Matrix4x4<T>)
    ensures Transposition(Transposition(m)) == m
  {
    EntriesDetermine(Transposition(Transposition(m)), m);
  }

  /** `IDENTITY` is its own transpose. */
  lemma IdentitySymmetric<T>(st: States<T>)
    ensures Transposition(Identity(st)) == Identity(st)
  {
    EntriesDetermine(Transposition(Identity(st)), Identity(st));
  }
}
