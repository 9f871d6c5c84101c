# veclib in Dafny

A model of the core of veclib, a small Rust library of fixed-size vectors
(arity 2, 3 and 4), a 4×4 matrix and a quaternion. The repository carries two
revisions of the same design, and both are modelled:

- the newer one under `src/`:
  - `Vector3` and `Vector4` with named fields, and `Vector2` on an `inner` array;
  - operator templates in `src/macros.rs`;
  - a `Matrix4x4` indexed through one flat index;
- the older one under `veclib-main/`:
  - vectors that are plain `data` arrays;
  - hand-written element-wise comparisons and `all`/`any`;
  - a row-indexed f32 `Matrix` with `from_translation`.

Modelling choices:

- Element types:
  - i32 and i64 are unbounded `int`;
  - f32 and f64 are exact `real`;
  - `bool` is `bool`.
  The `DefaultStates` pair `off`/`on` is `Elements.States`. The constants `Elements.I32` to `Elements.Boolean` hold the pairs that `src/types.rs:11-58` and the `const` implementations of `veclib-main/src/types.rs:11-38` both give.
- Integer `/` and `%` follow Rust and truncate toward zero (`Elements.TruncDiv`, `Elements.TruncRem`). A division by zero panics in Rust, so a nonzero divisor is a precondition.
- Any out-of-range index is fatal in the source (`todo!()` or an array bounds panic), so an in-range index is a precondition.
- The operator templates:
  - are modelled over the index view of a vector, `seq<int>`, with one `BinOp` for `+ - * / %`;
  - have their loops written as methods whose `ensures` equal the pure `Operators.Binary`, `Operators.Scalar` and `Operators.Neg`;
  - are lifted to each vector through its index view.
- The older revision's vectors are sequences of their arity.

Modules follow the source files:

| module | file |
|---|---|
| `Elements` | `types.rs` of both revisions |
| `Lanes` | shared index view and swizzle gather |
| `Operators` | `src/macros.rs` operator templates |
| `FloatOps` | `src/macros.rs` arithmetic template |
| `Vec2`, `Vec3`, `Vec4`, `Swizzle` | `src/vectors/` |
| `Matrix` | `src/matrix.rs` |
| `Quat` | `src/quaternion.rs` |
| `Consts` | `src/consts.rs` |
| `LegacyOps` | `veclib-main/src/macros.rs` |
| `ArrayVector` | the code the older revision's three vector files share |
| `LegacyVec2`, `LegacyVec3`, `LegacyVec4` | `veclib-main/src/vectors/` |
| `LegacyMatrix` | `veclib-main/src/matrix.rs` |
| `Fixtures`, `LegacyFixtures` | each revision's `tests.rs` |

## Model

| member | source | states |
|---|---|---|
| Elements.IntegerStates | src/types.rs:11-28 | i32 and i64 have `off` 0 and `on` 1, the additive and multiplicative identities, and they differ |
| Elements.FloatStates | src/types.rs:31-48 | f32 and f64 have `off` 0.0 and `on` 1.0, the two identities, and they differ |
| Elements.BoolStates | src/types.rs:51-58 | bool has `off` false and `on` true, the neutral elements of `||` and `&&` |
| Elements.TruncDivRem | src/vectors/vec2.rs:322-335 | Rust's `/` and `%` recompose the dividend; the remainder is smaller than the divisor in magnitude and has the dividend's sign; the quotient's magnitude is the floor of the ratio of magnitudes |
| Lanes.Gather | veclib-main/src/vectors/vec3.rs:44-56 | swizzle: slot k of the result is slot `order[k]` of the vector, and repeats are allowed |
| Lanes.GatherIota | veclib-main/src/vectors/vec4.rs:45-57 | the identity order gives the vector back |
| Lanes.GatherComposes | veclib-main/src/vectors/vec4.rs:45-57 | a swizzle of a swizzle reads the original through the composed order |
| Operators.Assign | src/macros.rs:4-36 | `a ⊕ b` and `a ⊕= b` run one loop on the receiver that leaves slot i equal to `a[i] ⊕ b[i]`, the pure component-wise result |
| Operators.AssignScalar | src/macros.rs:38-60 | `v ⊕ s` and `v ⊕= s` leave slot i equal to `v[i] ⊕ s`, the pure scalar result |
| Operators.ScalarIsBroadcast | src/macros.rs:44-49 | a scalar operand acts as the vector that repeats it in every slot |
| Operators.NegByValue | src/macros.rs:262-267 | `-v` negates every slot in place |
| Operators.NegByRef | src/macros.rs:275-281 | `-&v` fills a fresh ZERO with the negated slots, giving the same vector as `-v` |
| Operators.NegInvolution | src/macros.rs:262-281 | negating twice restores the vector over unbounded integers |
| Operators.SubUndoesAdd | src/macros.rs:73-78 | subtracting what was added restores the vector: `a + b - b == a` |
| Operators.DivRemRecompose | src/vectors/vec2.rs:252-264 | vector `/`, `*`, `+` and `%` recompose the dividend, and each remainder slot is bounded by its divisor and has the dividend's sign |
| FloatOps.Dot | src/macros.rs:325-331 | `dot` accumulates `self[i] * other[i]` from zero into the sum of products |
| FloatOps.LengthSqrt | src/macros.rs:297-303 | `length_sqrt` is the sum of squares: never negative, and zero exactly for the zero vector |
| FloatOps.DotSymmetric | src/macros.rs:325-331 | the dot product is symmetric |
| FloatOps.SumOfSquaresZero | src/macros.rs:297-303 | a sum of squares is never negative and vanishes exactly when every slot is zero |
| FloatOps.DotOfDistinctUnits | src/tests.rs:56-59 | distinct unit vectors of any arity are orthogonal, which generalises the test `X · Y == 0` |
| FloatOps.Min | src/macros.rs:333-339 | `min`: each slot is at most both operands' slots and is one of them |
| FloatOps.Max | src/macros.rs:341-347 | `max`: each slot is at least both operands' slots and is one of them |
| FloatOps.Clamp | src/macros.rs:349-351 | `clamp`: where the bounds are ordered the slot lies within them. A slot already inside is kept, a slot below is raised to the lower bound, and a slot above is lowered to the upper one. Where the bounds cross, the lower bound wins |
| FloatOps.LerpAsWritten | src/macros.rs:354-357 | the template's `lerp` yields `other` at t = 0 and `self` at t = 1 |
| FloatOps.Lerp | src/vectors/vec2.rs:64-67 | `lerp` runs from `self` at t = 0 to `other` at t = 1, each slot moving by the slots' difference per unit of t |
| FloatOps.LerpAsWrittenIsReversed | src/macros.rs:354-357 | the template's `lerp` is the intended one with its end points swapped, and the two differ at t = 0 whenever the operands differ |
| Vec2.InnerRoundTrip | src/vectors/vec2.rs:5-8 | the two fields and the `inner` array determine each other |
| Vec2.Operate | src/vectors/vec2.rs:72-84 | vector `+ - * / %` and their `*Assign` forms combine `x` with `x` and `y` with `y`, matching the template's component-wise result |
| Vec2.OperateScalar | src/vectors/vec2.rs:85-131 | `v ⊕ s`, `v ⊕ &s` and `v ⊕= s` broadcast the scalar to both slots |
| Vec2.Remainder | src/vectors/vec2.rs:322-335 | `a % b` leaves, per slot, the truncating remainder that recomposes the dividend, bounded by the divisor and with the dividend's sign |
| Vec2.Negate | src/vectors/vec2.rs:312-321 | `-v` negates both slots |
| Vec2.ZeroOne | src/vectors/vec2.rs:371-388 | `is_zero` holds exactly for `zero()`; `one()` is not zero and has both slots `on` |
| Vec2.LengthSqrt | src/vectors/vec2.rs:17-23 | `length_sqrt` is `x² + y²`, never negative, and zero exactly for the zero vector |
| Vec2.DotAsWritten | src/vectors/vec2.rs:34-40 | the written `dot` is the difference of the two component sums |
| Vec2.Dot | src/vectors/vec2.rs:34-40 | the dot product the method is named for, `x·x' + y·y'` |
| Vec2.DotAsWrittenVanishes | src/vectors/vec2.rs:34-40 | the written `dot` of any vector with itself is 0, while the dot product of (1, 0) with itself is 1 |
| Vec2.DotProperties | src/vectors/vec2.rs:34-40 | the intended dot product is symmetric, non-negative on a vector with itself, and zero there only for ZERO |
| Vec2.Lerp | src/vectors/vec2.rs:64-67 | `lerp` yields `self` at t = 0 and `other` at t = 1, and it is the template's `lerp` with the end points swapped |
| Vec3.Index | src/vectors/vec3.rs:68-79 | slots 0, 1, 2 read `x`, `y`, `z` and any other index is fatal |
| Vec3.IndexMut | src/vectors/vec3.rs:82-92 | a write through slot i replaces that field only |
| Vec3.ReadAfterWrite | src/vectors/vec3.rs:68-92 | after a write, the written slot reads the new value and every other slot its old one |
| Vec3.New | src/vectors/vec3.rs:62-65 | `new(f1, f2, f3)` fills slots 0, 1, 2 in order |
| Vec3.Default | src/vectors/vec3.rs:40-47 | `default()` is ZERO, `off` in every slot |
| Vec3.Constants | src/vectors/vec3.rs:56-60 | X, Y and Z are the unit vectors of slots 0, 1, 2; ZERO and ONE are uniform |
| Vec3.DefaultAxis | src/vectors/vec3.rs:121-133 | `get_default_axis(a)` is the unit vector of a's slot |
| Vec3.Combine | src/vectors/vec3.rs:146-149 | the stamped `a ⊕ b` combines slot i with slot i alone |
| Vec3.CombineScalar | src/vectors/vec3.rs:146-149 | the stamped `v ⊕ s` applies the scalar to every slot |
| Vec3.Negate | src/tests.rs:49 | `-v` negates every field, so `-ONE` is (-1, -1, -1) |
| Vec3.Dot | src/macros.rs:325-331 | on three slots, `dot` is `x·x' + y·y' + z·z'` |
| Vec3.Cross | src/vectors/vec3.rs:177-191 | `cross` is orthogonal to both operands |
| Vec3.CrossAnticommutes | src/vectors/vec3.rs:177-183 | swapping the operands negates the cross product, and a vector crossed with itself is ZERO |
| Vec4.New | src/vectors/vec4.rs:53-58 | `new(f1, f2, f3, f4)` fills x, y, z, w in order |
| Vec4.Index | src/vectors/vec4.rs:103-116 | slots 0 to 3 read x, y, z, w and any other index is fatal |
| Vec4.IndexMut | src/vectors/vec4.rs:118-130 | a write through slot i replaces that component only |
| Vec4.ReadAfterWrite | src/vectors/vec4.rs:103-130 | after a write, the written slot reads the new value and every other slot its old one |
| Vec4.Default | src/vectors/vec4.rs:42-51 | `default()` puts the element default in every slot |
| Vec4.Constants | src/vectors/vec4.rs:62-99 | X, Y, Z, W have `on` in exactly their own slot; ZERO and ONE are uniform |
| Vec4.DefaultAxis | src/vectors/vec4.rs:158-165 | `get_default_axis(a)` is the unit vector of a's slot |
| Vec4.GetAxis | src/vectors/vec4.rs:167-174 | `get_axis(a)` is the component at a's slot |
| Vec4.AxisOfDefaultAxis | src/vectors/vec4.rs:156-174 | reading axis b of the default vector for axis a gives `on` exactly when a == b |
| Vec4.Combine | src/macros.rs:4-36 | on four slots, `a ⊕ b` combines slot i with slot i alone |
| Vec4.CombineScalar | src/macros.rs:38-60 | on four slots, `v ⊕ s` applies the scalar to every slot |
| Swizzle.Vec3Get2 | src/vectors/vec3.rs:107-109 | `get2` gathers `v[order[k]]` into slot k |
| Swizzle.Vec3Get3 | src/vectors/vec3.rs:103-105 | `get3` gathers `v[order[k]]` into slot k |
| Swizzle.Vec3Get4 | src/vectors/vec3.rs:99-101 | `get4` gathers `v[order[k]]` into slot k |
| Swizzle.Vec4Get2 | src/vectors/vec4.rs:141-143 | `get2` gathers `v[order[k]]` into slot k |
| Swizzle.Vec4Get3 | src/vectors/vec4.rs:137-139 | `get3` gathers `v[order[k]]` into slot k |
| Swizzle.Vec4Get4 | src/vectors/vec4.rs:133-135 | `get4` gathers `v[order[k]]` into slot k |
| Swizzle.Vec3Get3Orders | src/vectors/vec3.rs:103-105 | the identity order gives v, (2, 1, 0) reverses it, and (i, i, i) repeats a component |
| Swizzle.Vec3Get3Composes | src/vectors/vec3.rs:103-105 | swizzling a swizzle reads the original through the composed order |
| Swizzle.Vec4Get4Identity | src/vectors/vec4.rs:133-135 | `get4([0, 1, 2, 3])` gives the vector back |
| Swizzle.Vec4Get4Composes | src/vectors/vec4.rs:133-135 | swizzling a swizzle reads the original through the composed order |
| Matrix.Row | src/matrix.rs:91-93 | `get_vec(n)` is row n, unchanged |
| Matrix.EntriesDetermine | src/matrix.rs:13-19 | a matrix is determined by its sixteen entries |
| Matrix.IndexAt | src/matrix.rs:32-44 | flat index `c + 4r` reads row r, column c |
| Matrix.IndexMut | src/matrix.rs:47-58 | a write through flat index k changes the entry at row `k / 4`, column `k % 4`, and no other |
| Matrix.Identity | src/matrix.rs:65-68 | IDENTITY's entry (r, c) is `on` exactly when r == c |
| Matrix.Default | src/matrix.rs:22-29 | `default()` is IDENTITY, whose row n is the unit vector of slot n |
| Matrix.Transposition | src/matrix.rs:80-89 | the transpose's entry (r, c) is the original's entry (c, r) |
| Matrix.TranspositionFlat | src/matrix.rs:80-89 | in flat terms, entry `x + 4y` of the transpose is entry `y + 4x` |
| Matrix.Transposed | src/matrix.rs:80-89 | the loop that overwrites a copy of IDENTITY entry by entry ends with the transpose |
| Matrix.Transpose | src/matrix.rs:76-78 | `transpose()` leaves the matrix equal to its old `transposed()`, so row n holds the old column n |
| Matrix.TranspositionInvolution | src/matrix.rs:80-89 | transposing twice restores the matrix |
| Matrix.IdentitySymmetric | src/matrix.rs:66-89 | IDENTITY is its own transpose |
| Quat.Identity | src/quaternion.rs:24 | IDENTITY's data is the vector W |
| Quat.Default | src/quaternion.rs:9-16 | `default()` is IDENTITY |
| Quat.IdentityComponents | src/quaternion.rs:24 | IDENTITY has x, y, z `off` and w `on`, for floats (0, 0, 0, 1) |
| Consts.Vec2Of | src/consts.rs:4-6 | `vec2(a, b)` has x = a and y = b |
| Consts.Vec3Of | src/consts.rs:7-9 | `vec3(a, b, c)` has x, y, z = a, b, c |
| Consts.Vec4Of | src/consts.rs:10-12 | `vec4(a, b, c, d)` has x, y, z, w = a, b, c, d |
| Consts.ConstsAgreeWithNew | src/consts.rs:7-12 | the const constructors build the same vectors as `new` |
| LegacyOps.ByRef | veclib-main/src/macros.rs:12-19 | `&a ⊕ &b` fills a fresh ZERO with `a[i] ⊕ b[i]`, which is the component-wise result |
| LegacyOps.ByRefMatchesByValue | veclib-main/src/macros.rs:7-25 | the by-reference, by-value and in-place forms leave the same vector |
| ArrayVector.IndexMut | veclib-main/src/vectors/vec2.rs:35-40 | a write through slot i replaces that slot only |
| ArrayVector.WriteBack | veclib-main/src/vectors/vec2.rs:26-40 | writing back the old value undoes a write |
| ArrayVector.ElemWise | veclib-main/src/vectors/vec3.rs:61-90 | each `elem_*` result slot is the comparison of the operands' slot i alone |
| ArrayVector.ComparisonDuality | veclib-main/src/vectors/vec3.rs:61-90 | on a total order `>=` is the negation of `<`, `<=` is `<` or `==`, `>` is `<` swapped, and `==` is symmetric |
| ArrayVector.FoldAndMeaning | veclib-main/src/vectors/vec3.rs:97-101 | the `&`-fold holds exactly when its seed and every slot hold |
| ArrayVector.FoldOrMeaning | veclib-main/src/vectors/vec3.rs:103-107 | the `|`-fold holds exactly when its seed or some slot holds |
| ArrayVector.AllAsWritten | veclib-main/src/vectors/vec4.rs:98-102 | `all` as written returns false for every mask |
| ArrayVector.All | veclib-main/src/vectors/vec4.rs:98-102 | `all` seeded true holds exactly when every slot holds |
| ArrayVector.Any | veclib-main/src/vectors/vec4.rs:104-108 | `any` holds exactly when some slot holds |
| ArrayVector.AllAnyDuality | veclib-main/src/vectors/vec2.rs:104-114 | `all` is the negation of `any` on the negated mask; on an all-true mask the written `all` fails and the intended one holds |
| LegacyVec2.New | veclib-main/src/vectors/vec2.rs:20-22 | `new(f1, f2)` has `x()` = f1 and `y()` = f2 |
| LegacyVec2.AxesAsWrittenCollide | veclib-main/src/vectors/vec2.rs:15-18 | the written X equals ONE, and the written Y equals the intended X; neither is a unit vector of its own slot |
| LegacyVec2.AxesAreUnits | veclib-main/src/vectors/vec2.rs:15-18 | the intended X and Y are the unit vectors of slots 0 and 1, read through `x()` and `y()`; ZERO and ONE are uniform |
| LegacyVec3.New | veclib-main/src/vectors/vec3.rs:21-23 | `new(f1, f2, f3)` fills slots 0 to 2 in order |
| LegacyVec3.Constants | veclib-main/src/vectors/vec3.rs:15-19 | X, Y, Z have `on` exactly at their own slot; ZERO and ONE are uniform |
| LegacyVec4.New | veclib-main/src/vectors/vec4.rs:22-24 | `new(f1, f2, f3, f4)` fills slots 0 to 3 in order |
| LegacyVec4.Constants | veclib-main/src/vectors/vec4.rs:15-20 | X, Y, Z, W have `on` exactly at their own slot; ZERO and ONE are uniform |
| LegacyVec4.Operate | veclib-main/src/vectors/vec4.rs:112-158 | hand-written `+ - * /` and `+= -= *=` combine slot i with slot i alone |
| LegacyVec4.DivAssignAsWritten | veclib-main/src/vectors/vec4.rs:159-163 | `/=` as written leaves `a[i] * b[i]` |
| LegacyVec4.DivAssign | veclib-main/src/vectors/vec4.rs:151-158 | `/=` as named leaves the truncating quotient `a[i] / b[i]`, the same as `/` |
| LegacyVec4.DivAssignAsWrittenDisagrees | veclib-main/src/vectors/vec4.rs:159-163 | the written `/=` differs from division whenever some slot has a nonzero dividend and a divisor of magnitude 2 or more; (6,6,6,6) `/=` (2,2,2,2) gives 12s, not 3s |
| LegacyMatrix.IndexMut | veclib-main/src/matrix.rs:21-26 | a write through row i replaces that row and no other |
| LegacyMatrix.Identity | veclib-main/src/matrix.rs:32-34 | IDENTITY's rows are X, Y, Z, W: entry (i, j) is 1 exactly when i == j |
| LegacyMatrix.FromTranslation | veclib-main/src/matrix.rs:51-59 | `from_translation(p)` is IDENTITY with p in the last column of the first three rows |
| LegacyMatrix.TranslationByZero | veclib-main/src/matrix.rs:51-59 | translating by the zero vector gives IDENTITY |
| LegacyMatrix.TranslationMovesPoints | veclib-main/src/matrix.rs:51-59 | applied to a point with w = 1, the translation matrix adds p and keeps w = 1 |
| Fixtures.SwizzleCases | src/tests.rs:11-22 | the swizzle test's repeated, reversed and widened orders |
| Fixtures.OperatorCases | src/tests.rs:37-53 | the operator test's sums, products and negations of the constants |
| Fixtures.ArithmeticCases | src/tests.rs:56-62 | `X · Y == 0`, and `(2, 3, 4) × (5, 6, 7) == (-3, 6, -3)` |
| LegacyFixtures.SwizzleCases | veclib-main/src/tests.rs:7-18 | the swizzle test's repeated, reversed and widened orders |
| LegacyFixtures.ComparisonCases | veclib-main/src/tests.rs:21-30 | X against Y: `elem_eq` (F, F, T), `elem_gt` (T, F, F), `elem_lte` (F, T, T) |
| LegacyFixtures.OperatorCases | veclib-main/src/tests.rs:33-45 | `Y + ONE == (1, 2, 1)`, `X + Y == (1, 1, 0)`, `ONE - W == (1, 1, 1, 0)`, `ONE - ZERO == ONE` |

## Left out

- Operations that need `sqrt`, `tan` or rounding are not modelled, because exact reals have no faithful counterpart for them:
  - `length`, `distance`, `normalize` and `normalized`;
  - `floor`, `round` and `ceil` of `Vector2`;
  - `from_perspective`.
- `normalize` in `src/macros.rs:309-314` takes `self` by value, so it never changes the caller's vector. It is not modelled; see above.
- `look_at` is not modelled: it ends in `todo!()`.
- Several macros that the source invokes but does not define are not part of this model, and their bodies are not guessed:
  - `impl_matrix!` (matrix multiply and inverse, and so the identity × identity test);
  - `impl_elem_wise_comparison!`, the comparisons of the newer vectors, so only the older revision's comparisons are modelled;
  - `impl_from_vec3!` and `impl_from_vec4!`;
  - `impl_eq_hash!`, `setup_neg!` and `setup_vector_operations!`, so the float algebra of `Vector4` (its `dot` among it) is not modelled.
- Vec3.Negate: assumes that `setup_neg!`, which is invoked at `src/vectors/vec3.rs:150` but not part of this model, negates every slot the way the `setup_una` template does. That template is defined in `src/macros.rs:254-284` but invoked nowhere. The operator test's `-ONE == (-1, -1, -1)` agrees with this reading.
- The element constants come from traits that are not part of this model, and the model reads each as the `Elements.States` pair:
  - `Vector3`'s constants use `T::OFF` and `T::ON` (`src/vectors/vec3.rs:56-60`), while `DefaultStates` declares only the functions `off()` and `on()`; `OFF` and `ON` are read as `off` and `on`.
  - `Vector4`, the matrix and the quaternion use `T::ZERO` and `T::ONE` of `SupportedValue`, which no file here defines; they are read as `off` and `on`.
- The older revision's vectors call procedural macros (`setup_addition!` and the others). They emit the same loops as `veclib-main/src/macros.rs`, so they are modelled once, by `Operators` and `LegacyOps`.
- `src/cast.rs` is not modelled: it is a thin wrapper over Rust's `Into` conversions.
- `src/vectors/single.rs` and `scalar.rs` are not modelled: they use raw pointers and an enum whose definition is not part of this model.
- `Display`, `Hash`, `Debug` and the module wiring carry no vector behaviour and are not modelled.
- Fixed-width overflow is not modelled. This includes `i32::MIN / -1`, which panics in Rust and is an ordinary quotient here.
- IEEE semantics are not modelled: no NaN, no infinities, no rounding. `min`, `max` and the comparisons are therefore total.
- Operators.Assign and the other operator members model integer elements only. The float instantiations are the same loops over `real`, and the operator tests written on f32 vectors are stated on integer vectors with the same small whole values.
- `Vector2::new` is called by the newer revision's swizzles but is defined in none of its files. The model builds the vector from its two fields.
- `src/consts.rs` builds `Vector2 { x, y }`, while `src/vectors/vec2.rs` stores an `inner` array. The model keeps the two fields and views them as the array through `Vec2.Inner`.
- The newer templates loop over `self.data.len()`, while `Vector3` and `Vector4` have named fields. The loops are read as running over the arity.
- The older revision's tests use `Vector4 * 2`, but its `Vector4` implements no scalar operators. Those two assertions are not modelled.
- The by-reference `&a ⊕ &b` forms are commented out in `src/macros.rs` and live only in the older templates, where `LegacyOps.ByRef` models them.
- `get_vec_mut` is covered only through the row writes of `Matrix.IndexMut`.

## Findings

| source | as written | input that shows it | evidently intended | confidence | as-written member | corrected member |
|---|---|---|---|---|---|---|
| veclib-main/src/vectors/vec4.rs:98-102 | `all` seeds its accumulator with `false` and then `&=`s every slot (the same in `vec2.rs` and `vec3.rs`) | the mask (true, true, true, true) gives false | seed `true`, so `all` holds when every slot does | high, not executed | ArrayVector.AllAsWritten | ArrayVector.All |
| veclib-main/src/vectors/vec4.rs:159-163 | `DivAssign` multiplies the slots | (6, 6, 6, 6) `/=` (2, 2, 2, 2) leaves (12, 12, 12, 12) | divide, leaving (3, 3, 3, 3) as `/` does | high, not executed | LegacyVec4.DivAssignAsWritten | LegacyVec4.DivAssign |
| veclib-main/src/vectors/vec2.rs:16-17 | `X` is `[on, on]` and `Y` is `[on, off]` | `X == ONE`, and `Y.y()` is `off` | `X = [on, off]` and `Y = [off, on]`, as in `vec3.rs` and `vec4.rs` | high, not executed | LegacyVec2.AxesAsWrittenCollide | LegacyVec2.AxesAreUnits |
| src/vectors/vec2.rs:34-40 | `dot` sums the slots of `self - other` | `dot((1, 0), (1, 0))` is 0, not 1 | the sum of the products, as the template's `dot` computes | high, not executed | Vec2.DotAsWrittenVanishes | Vec2.DotProperties |
| src/macros.rs:354-357 | `lerp` is `other + (self - other) * t` | `a.lerp(b, 0)` is `b` whenever a ≠ b | `self + (other - self) * t`, as `src/vectors/vec2.rs:64-67` computes | medium, not executed | FloatOps.LerpAsWrittenIsReversed | FloatOps.Lerp |
