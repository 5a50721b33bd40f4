# Vector arithmetic model

This project models the vector arithmetic of a small Rust experiments
repository in Dafny.

- `Vector<T>` is a three-component vector. It has a constructor, unary
  negation, `dot`, `cross` and structural equality. It has `+ - * /` in two
  forms: with a vector on the right, or with a scalar that is broadcast to all
  three components. It also has the eight compound assignments `+= -= *= /=`,
  which update the receiver's `x`, `y` and `z` in place.
- The experimental sequence-backed `Vector<T>(Vec<T>)` has an element-wise
  `+` that builds its result by pushing one sum per index.

The generic element type `T` is modelled as `real`. All algebraic laws below
therefore hold over exact numbers. They are not claimed for IEEE `f64`.

Files:
- `vector.dfy`, module `Vectors`: the `Vector` datatype and its value
  operators as functions. The class `MutableVector` holds the fields `x`, `y`
  and `z`, and its compound-assignment methods update them in place
  (`modifies this`). Each method's postcondition ties the new value to the
  matching value operator applied to the old value.
- `experimental.dfy`, module `SeqVectors`: the `SeqVector` wrapper. Its `Add`
  method is a loop, proved against the specification function
  `ElementwiseSum`.

The scalar `-=` is reproduced as written: it updates only `x` and `y`. The
lemma `SubAssignScalarDiverges` states exactly when it disagrees with `v - s`
(see "## Findings").

## Model

| member | source | states |
|---|---|---|
| `Vectors.New` | src/vector/mod.rs:25-27 | the vector holds the three given coordinates, in order |
| `Vectors.NewEqIff` | src/vector/mod.rs:25-27 | two constructed vectors are equal iff their coordinates are pairwise equal |
| `Vectors.Eq` | src/vector/mod.rs:74-76 | equality is true exactly when the two vector values are identical, i.e. all three components are equal, with no tolerance |
| `Vectors.EqIsEquivalence` | src/vector/mod.rs:74-76 | equality is reflexive, symmetric and transitive |
| `Vectors.Neg` | src/vector/mod.rs:36-38 | the negation is the additive inverse: `a + (-a)` is the zero vector |
| `Vectors.NegInvolutive` | src/vector/mod.rs:36-38 | `-(-a) == a`, and `-a` equals `0 - a` |
| `Vectors.DotSymmetric` | src/vector/mod.rs:46-48 | `dot(a, b) == dot(b, a)` |
| `Vectors.Cross` | src/vector/mod.rs:58-64 | the cross product is orthogonal to both operands: `dot(a, cross(a, b)) == 0` and `dot(b, cross(a, b)) == 0` |
| `Vectors.CrossAntiCommutative` | src/vector/mod.rs:58-64 | `cross(a, b) == -cross(b, a)`, and `cross(a, a)` is the zero vector |
| `Vectors.Sub` | src/vector/mod.rs:147-149 | subtraction undoes addition, `(a - b) + b == a`, and equals `a + (-b)` |
| `Vectors.Div` | src/vector/mod.rs:238-240 | for divisors with no zero component, division undoes multiplication: `(a / b) * b == a` |
| `Vectors.MulCommutesAndDivUndoes` | src/vector/mod.rs:194-196 | the component-wise product is commutative, and for a divisor with no zero component `(a * b) / b == a` |
| `Vectors.AddScalar` | src/vector/mod.rs:110-116 | `a + s` equals `a` plus the vector with `s` in all three components |
| `Vectors.SubScalar` | src/vector/mod.rs:158-164 | `a - s` equals `a` minus the vector with `s` in all three components |
| `Vectors.MulScalar` | src/vector/mod.rs:205-207 | `a * s` equals `a` times the vector with `s` in all three components |
| `Vectors.DivScalar` | src/vector/mod.rs:249-251 | for `s != 0`, `a / s` equals `a` divided by the vector with `s` in all three components |
| `Vectors.SubScalarAsWritten` | src/vector/mod.rs:182-185 | the value left by the scalar `-=` keeps the old `z`, and agrees with `a - s` on `x` and `y` |
| `Vectors.MutableVector.AddAssign` | src/vector/mod.rs:123-127 | after `v += rhs`, the receiver holds `old(v) + rhs` |
| `Vectors.MutableVector.AddAssignScalar` | src/vector/mod.rs:134-138 | after `v += s`, the receiver holds `old(v) + s` |
| `Vectors.MutableVector.SubAssign` | src/vector/mod.rs:171-175 | after `v -= rhs`, the receiver holds `old(v) - rhs` |
| `Vectors.MutableVector.SubAssignScalar` | src/vector/mod.rs:182-185 | after `v -= s`, `x` and `y` are decremented by `s` and `z` is unchanged |
| `Vectors.MutableVector.SubAssignScalarCorrected` | src/vector/mod.rs:182-185 | corrected scalar `-=`: the receiver holds `old(v) - s` on all three components |
| `Vectors.MutableVector.MulAssign` | src/vector/mod.rs:214-218 | after `v *= rhs`, the receiver holds `old(v) * rhs` |
| `Vectors.MutableVector.MulAssignScalar` | src/vector/mod.rs:225-229 | after `v *= s`, the receiver holds `old(v) * s` |
| `Vectors.MutableVector.DivAssign` | src/vector/mod.rs:258-262 | after `v /= rhs` with no zero divisor component, the receiver holds `old(v) / rhs` |
| `Vectors.MutableVector.DivAssignScalar` | src/vector/mod.rs:269-273 | after `v /= s` with `s != 0`, the receiver holds `old(v) / s` |
| `Vectors.SubAssignScalarDiverges` | src/vector/mod.rs:182-185 | the scalar `-=` as written agrees with `v - s` iff `s == 0`; otherwise they differ in `z` |
| `Vectors.SubAssignScalarCounterexample` | src/vector/mod.rs:182-185 | for `v = (-1, 2, -3)` and `s = 1`, `-=` leaves `(-2, 1, -3)` but `v - s` is `(-2, 1, -4)` |
| `Vectors.FixtureAdd` | src/vector/tests.rs:3-9 | the `add` test: `(-1, 2, -3) + (6, -5, 4) == (5, -3, 1)` |
| `Vectors.FixtureSub` | src/vector/tests.rs:19-25 | the `sub` test: `(-1, 2, -3) - (6, -5, 4) == (-7, 7, -7)` |
| `Vectors.FixtureMul` | src/vector/tests.rs:35-41 | the `mul` test: `(-1, 2, -3) * (6, -5, 4) == (-6, -10, -12)` |
| `Vectors.FixtureDiv` | src/vector/tests.rs:51-57 | the `div` test: `(-1, 2, -3) / (6, -5, 4) == (-1/6, -2/5, -3/4)` |
| `Vectors.FixtureNegDotCross` | src/vector/tests.rs:67-88 | the `neg`, `dot` and `cross` tests: `-v1 == (1, -2, 3)`, `dot(v1, v2) == -28`, `cross(v1, v2) == (-7, -14, -7)` |
| `Vectors.AssignFixtures` | src/vector/tests.rs:11-65 | applying `+=`, `-=`, `*=` and `/=` to a binding of `v1` yields the expected vectors of the tests |
| `SeqVectors.ElementwiseSum` | src/vector/experimental.rs:28-32 | the pushed sequence has the length of the left operand, and element `i` is `a[i] + b[i]` |
| `SeqVectors.Add` | src/vector/experimental.rs:27-33 | for `rhs` at least as long as `self`, the loop returns a result of length `self.len()` with `result[i] == self[i] + rhs[i]` |
| `SeqVectors.ElementwiseSumIgnoresTail` | src/vector/experimental.rs:29-30 | elements of `rhs` beyond `self.len()` never affect the sum |
| `SeqVectors.ElementwiseSumCommutes` | src/vector/experimental.rs:27-33 | on operands of equal length, the element-wise sum is commutative |
| `SeqVectors.Vector3AddIsElementwiseSum` | src/vector/mod.rs:95-101 | the components of the three-component `a + b` are the element-wise sum of the components of `a` and `b` |

## Left out

- `Vectors.Div`: requires a divisor with no zero component. The source leaves division by zero to `T`; for `f64` that gives infinity or NaN, and `real` has neither.
- `Vectors.DivScalar`: requires a non-zero scalar divisor, for the same reason.
- `Vectors.MutableVector.DivAssign`: requires a divisor with no zero component, for the same reason.
- `Vectors.MutableVector.DivAssignScalar`: requires a non-zero scalar divisor, for the same reason.
- `SeqVectors.Add`: requires `rhs` to be at least as long as `self`. The source panics when indexing `rhs` out of bounds; the panic path is not modelled as a value.
- Floating-point semantics: the element type is `real`, so every law here is exact. That covers anti-commutativity, `-(-v) == v`, the orthogonality of the cross product and the inverse laws. None of them is claimed for `f64`, which rounds. Genericity over any `T` is not modelled.
- `Vectors.Eq`: its "equal iff the values are identical" holds over `real` only. For `f64`, `NaN != NaN`, and `0.0 == -0.0` although the two values differ.
- `Vectors.EqIsEquivalence`: its reflexivity does not hold for `f64`, because `NaN != NaN`.
- `Deref` / `DerefMut` of the sequence-backed wrapper: these are not separate members. The wrapper exposes its sequence as the field `items`, so its length and indexing are those of the sequence by construction. The `push` through `DerefMut` is modelled as appending to that sequence.
- The experimental file is not declared as a module of the crate (src/vector/mod.rs:1-2 declares only `tests`). It is modelled anyway, as its own module.
- Aliasing: the value operators take their operands by value (`Copy`), so "operands are untouched" holds by construction of Dafny values.
- The `vector!` macro: it only expands to `Vector::new`, which `Vectors.New` models.
- `Display`: its number formatting is a library call.
- The `Default`, `Debug`, `Copy` and `Clone` derives and impls: boilerplate with no logic.
- The `Tween` driver (src/tween/mod.rs): it depends on wall-clock time, `f64` progress, a busy-polling loop and a callback. It is not part of this model.
- src/main.rs: game-engine setup, entity spawning and printing. It is not part of this model.

## Findings

| source | as written | input that shows it | evidently intended | confidence | as-written member | corrected member |
|---|---|---|---|---|---|---|
| src/vector/mod.rs:182-185 | scalar `-=` subtracts `s` from `x` and `y` only | `v = (-1, 2, -3)`, `s = 1`: `v -= s` gives `(-2, 1, -3)` but `v - s` is `(-2, 1, -4)` | subtract `s` from all three components, like every other compound operator and like `v - s` | high (proved; not executed) | `Vectors.MutableVector.SubAssignScalar`, `Vectors.SubAssignScalarCounterexample` | `Vectors.MutableVector.SubAssignScalarCorrected` |
