# coord: cartesian, spherical and matrix coordinates, modelled in Dafny

Package coord is a small kernel for astronomical coordinates. It has a
3-vector type `Cart` with negation, addition, subtraction, scaling, rotation
about the X axis, dot, square and cross products and a matrix product. It has a
3 × 3 matrix type `M3` with a transpose that also works in place. It has the
angular types `Equa` (right ascension, declination) and `Sphr` (longitude,
latitude) with conversions to and from `Cart`. Finally it has slice methods
that run a conversion or a matrix product over a whole slice and reuse the
receiver's backing array when its capacity allows.

The model follows the Go code's own form:

- `cartesian.dfy`, module `Cartesian`. A `Cart` value is the datatype `Vec`.
  Its member functions are the algebra, and their contracts carry the laws.
  A `Cart` variable, the target of a `*Cart`, is the class `Cart`. Each of its
  methods overwrites `X`, `Y`, `Z` and returns the receiver. Each method is
  specified by the `Vec` function of the arguments' *old* values, so the
  contract also covers a receiver that is one of the arguments. The `…Aliasing`
  methods run each operation once into a separate receiver and once in place,
  and show that both store the same value.
- `matrix.dfy`, module `Matrix`. A `*M3` is an `array<real>` of length 9,
  stored row-major. `Transposed` is the transpose as a function. The
  `Transpose` method does the source's three grouped assignments, and its
  postcondition holds even when `z` and `a` are the same array.
- `spherical.dfy`, module `Spherical`. The element conversions
  `CartFromSphr`, `SphrFromEqua`, `SphrFromCart` and `EquaFromCart` (coord.go:103-112,
  132-136, 164-178) are functions on values. The trigonometric routines and the
  right-ascension unit routines they call come in as the fields of a `Lib`
  parameter, because their values are not part of this model.
- `slices.dfy`, module `Slices`. A Go slice is a `Slice<T>`: a backing array
  and a length, whose capacity is the array's length. Each broadcast method
  takes the `*CartS` or `*SphrS` receiver as its first argument. It either keeps
  the receiver's array or allocates a new one, fills the slice in an indexed
  loop, and stores the new array and length back into the receiver.

Reals stand in for float64. The laws that also hold in IEEE arithmetic are
these: `Add` commutes, `Cross(a, b) = -Cross(b, a)` and
`Square(a) = Dot(a, a)`. `Cross(a, a) = 0` holds in IEEE arithmetic only when
no component is infinite or NaN and no product of two components overflows:
for a = (1e200, 1e200, 0) the Z component is Inf − Inf, which is NaN. The orthogonality of the cross product, the RotateX
round trip and norm preservation, and the unit length of `FromSphr` hold only
over the reals.

`Sphr.FromCart` (coord.go:174-178) stores `atan2(Y, X)` without normalising it
into [0, 2π); only `Equa.FromCart` passes it through `unit.RAFromRad`
(coord.go:167), whose normalisation is not part of this model.

## Model

| member | source | states |
|---|---|---|
| `Cartesian.Vec.Neg` | coord.go:22-28 | -a is the additive inverse of a: a + (-a) = 0 |
| `Cartesian.Vec.Add` | coord.go:30-36 | subtracting b from a + b gives back a |
| `Cartesian.Vec.MulScalar` | coord.go:46-52 | scaling a by k multiplies its squared length by k² |
| `Cartesian.Vec.RotateX` | coord.go:54-64 | rotation about the X axis keeps X; when sin² + cos² = 1 it keeps the squared length |
| `Cartesian.Vec.Square` | coord.go:71-74 | Square(a) = Dot(a, a), and it is never negative |
| `Cartesian.Vec.Cross` | coord.go:76-83 | a × b is orthogonal to a and to b |
| `Cartesian.AddCommutes` | coord.go:30-36 | a + b = b + a |
| `Cartesian.SubIsAddNeg` | coord.go:38-44 | a - b = a + (-b) |
| `Cartesian.SubAddCancel` | coord.go:30-44 | (a + b) - b = a and (a - b) + b = a |
| `Cartesian.DotSymmetric` | coord.go:66-69 | a · b = b · a |
| `Cartesian.CrossAnticommutes` | coord.go:76-83 | a × b = -(b × a), and a × a = 0 |
| `Cartesian.RotateXRoundTrip` | coord.go:54-64 | when sin² + cos² = 1, rotating by (sin, cos) and then by (-sin, cos) gives back a, in either order |
| `Cartesian.PlaneRoundTrip` | coord.go:54-64 | when s² + c² = 1, the Y and Z that RotateX computes, rotated back by (-s, c), are the original Y and Z |
| `Cartesian.ProductComponent` | coord.go:206-211 | component i of rm × a is rm[3i]·X + rm[3i+1]·Y + rm[3i+2]·Z |
| `Cartesian.Cart.Neg` | coord.go:22-28 | the receiver becomes -a, where a is read before any write, and the receiver is returned |
| `Cartesian.Cart.Add` | coord.go:30-36 | the receiver becomes a1 + a2, even when it is a1 or a2, and it is returned |
| `Cartesian.Cart.Sub` | coord.go:38-44 | the receiver becomes a1 - a2, even when it is a1 or a2, and it is returned |
| `Cartesian.Cart.MulScalar` | coord.go:46-52 | the receiver becomes a * b, even when it is a, and it is returned |
| `Cartesian.Cart.RotateX` | coord.go:54-64 | the receiver becomes a rotated by (sin, cos); the tuple assignment keeps this right when the receiver is a |
| `Cartesian.Cart.Cross` | coord.go:76-83 | the receiver becomes a × b; the tuple assignment keeps this right when the receiver is a or b |
| `Cartesian.Cart.Mult3` | coord.go:200-213 | the receiver becomes rm × a; the composite literal keeps this right when the receiver is a |
| `Cartesian.NegAliasing` | coord.go:23-28 | a.Neg(a) stores -a |
| `Cartesian.AddAliasing` | coord.go:31-36 | a.Add(a, b) stores a + b, and a.Add(a, a) stores a + a |
| `Cartesian.SubAliasing` | coord.go:39-44 | a.Sub(a, b) and b.Sub(a, b) both store a - b |
| `Cartesian.MulScalarAliasing` | coord.go:47-52 | a.MulScalar(a, k) stores a * k |
| `Cartesian.RotateXAliasing` | coord.go:61-64 | a.RotateX(a, sin, cos) stores the same value as a separate receiver |
| `Cartesian.CrossAliasing` | coord.go:77-83 | a.Cross(a, b) and b.Cross(a, b) store the same value as a separate receiver |
| `Cartesian.Mult3Aliasing` | coord.go:206-213 | a.Mult3(rm, a) stores the same value as a separate receiver |
| `Cartesian.AddExample` | coord_test.go:12-18 | {1,2,3} + {7,2,0} = {8,4,3} |
| `Cartesian.SubExample` | coord_test.go:79-85 | {8,4,3} - {1,2,3} = {7,2,0} |
| `Cartesian.MulScalarExample` | coord_test.go:44-50 | {4,1,0} * 3 = {12,3,0} |
| `Cartesian.DotExample` | coord_test.go:28-34 | {1,2,3} · {7,2,0} = 11 |
| `Cartesian.SquareExample` | coord_test.go:72-77 | Square({1,2,3}) = 14 |
| `Cartesian.CrossExample` | coord_test.go:20-26 | {1,0,0} × {0,1,0} = {0,0,1} |
| `Matrix.Transposed` | coord.go:230-237 | entry (i, j) of the transpose is entry (j, i) of the matrix; entries 0, 4 and 8 stay |
| `Matrix.Transpose` | coord.go:230-237 | z becomes transpose(old a), even when z is a, and z is returned |
| `Matrix.TransposedInvolution` | coord.go:230-237 | transposing twice gives back the matrix |
| `Matrix.TransposeAliasing` | coord.go:230-237 | m.Transpose(m) stores what a transpose into a separate matrix stores |
| `Matrix.TransposeExample` | coord_test.go:122-135 | transposing rows [1 2 3] [4 5 6] [7 8 9] in place gives rows [1 4 7] [2 5 8] [3 6 9] |
| `Matrix.ProductTransposedAdjoint` | coord.go:206-237 | (rm × a) · b = a · (transpose(rm) × b) |
| `Matrix.RotateXIsProduct` | coord.go:54-64 | RotateX(a, sin, cos) = transpose(XRotation) × a, and XRotation × a = RotateX(a, -sin, cos) |
| `Matrix.XRotationOnAxes` | coord_test.go:102-120 | XRotation × (1,0,0) = (1,0,0), XRotation × (0,1,0) = (0,cos,sin) and XRotation × (0,0,1) = (0,-sin,cos) |
| `Matrix.RotationExamples` | coord_test.go:52-70 | (0,1,0) rotated gives (0, cos, -sin); XRotation × (0,1,0) gives (0, cos, sin) |
| `Spherical.CartFromSphrIsUnit` | coord.go:103-112 | FromSphr gives a unit vector when sin² + cos² = 1 at the longitude and the latitude |
| `Spherical.CartFromEquaIsUnit` | coord.go:126-136 | FromSphr(FromEqua(e)) gives a unit vector under the same condition |
| `Spherical.CartFromSphrOnPrimeMeridian` | coord_test.go:36-42 | on longitude 0, where sin is 0 and cos is 1, FromSphr gives (cos lat, 0, sin lat) |
| `Slices.Broadcast` | coord.go:114-130 | broadcasting a conversion over a slice gives one element per input, element i being the conversion of input i |
| `Slices.BroadcastByElements` | coord.go:122-127 | a sequence of the same length whose every element is the conversion of the input's element is the broadcast |
| `Slices.BroadcastCartFromEquaIsUnit` | coord.go:114-130 | every element FromEquaS produces is a unit vector when sin² + cos² = 1 at each input's right ascension, as an angle, and declination |
| `Slices.BroadcastCartFromSphrIsUnit` | coord.go:147-162 | every element FromSphrS produces is a unit vector when sin² + cos² = 1 at each input's longitude and latitude |
| `Slices.FromEquaS` | coord.go:114-130 | the receiver gets length len(e), and element i is FromSphr(FromEqua(e[i])); its array is kept when cap ≥ len(e), and the array's tail beyond len(e) is unchanged; otherwise the array is new, of length len(e), and the old array is left unchanged |
| `Slices.SphrS` | coord.go:138-145 | a new slice of exactly len(e) elements, element i being FromEqua(e[i]) |
| `Slices.FromSphrS` | coord.go:147-162 | as FromEquaS, with element i being FromSphr(s[i]) |
| `Slices.FromCartS` | coord.go:180-195 | as FromEquaS, with element i being Sphr.FromCart(c[i]) |
| `Slices.Mult3SInBoundsIff` | coord.go:216-225 | Mult3S's loop stays in bounds exactly when it allocates or len(z) ≥ len(a); its result has length len(a) exactly when it allocates or len(z) = len(a) |
| `Slices.Mult3SCounterexamples` | coord.go:216-225 | an empty receiver of capacity 3 with three inputs indexes past its length; a receiver of length 5 with three inputs keeps length 5 |
| `Slices.Mult3S` | coord.go:215-228 | as written: needs len(z) ≥ len(a) when cap(z) ≥ len(a); element i < len(a) becomes rm × a[i], even when a shares the receiver's array at the same offset; on reuse the receiver keeps its array, its length and the elements at len(a) and beyond; otherwise it gets a new array of length len(a) and the old array is left unchanged |
| `Slices.Mult3SAdjusted` | coord.go:215-228 | with the reslice z[:len(a)]: no condition on the receiver, which always ends with length len(a) and element i = rm × a[i]; reuse and allocation as in Mult3S |
| `Slices.Mult3SExample` | coord_test.go:102-120 | Mult3S by an array holding XRotation into an empty receiver sends (1,0,0), (0,1,0), (0,0,1) to (1,0,0), (0,cos,sin), (0,-sin,cos) |

## Findings

| source | as written | input that shows it | evidently intended | confidence | as-written member | corrected member |
|---|---|---|---|---|---|---|
| coord.go:221 | when cap(z) ≥ len(a), Mult3S reslices the receiver to `z[:len(z)]`, its own length | len(z) = 0, cap(z) = 3, len(a) = 3: the loop writes z[0] past len(z) and panics. len(z) = 5, len(a) = 3: the result keeps two stale elements | `z[:len(a)]`, as in FromEquaS, FromSphrS and FromCartS, so the result has len(a) elements | high (not executed) | `Slices.Mult3S`, `Slices.Mult3SCounterexamples` | `Slices.Mult3SAdjusted` |

## Left out

- Floating point: float64 rounding, NaN and infinities are not modelled. Reals are exact, so the laws above hold with no tolerance.
- The trigonometry and the external package unit: `Angle.Sincos`, `math.Atan2`, `math.Asin`, `unit.RAFromRad` and `RA.Angle` are parameters, the fields of `Lib`, with no properties assumed. So no range is claimed for any angle, and the normalisation that `RAFromRad` performs is not modelled.
- `Spherical.SphrFromCart`, `Spherical.SphrFromEqua`, `Spherical.CartFromSphr` and `Spherical.EquaFromCart` carry no contract of their own, because their properties belong to the trigonometric routines. The facts proved about them are the unit-length lemmas and the prime-meridian case of FromSphr. The same reason leaves out the round trip FromCart(FromSphr(s)) = s. `EquaFromCart` is used by no other operation: it is `SphrFromCart` followed by `unit.RAFromRad` on the longitude, and nothing more can be said about it without the external routines.
- Return values of the slice methods: each Go method also returns the new slice header. The model stores that header back into the receiver object, and callers read it from there.
- Slices that start at a non-zero offset of their backing array, or whose capacity stops short of the array's end, are not modelled. Every `Slice` starts at index 0 and has the whole array as its capacity.
- The per-iteration copy of `range` variables is not modelled separately. Reading `a[i]` before writing `z[i]` has the same effect.
- `Dot` and `Square` only read their pointers, so they are modelled on values (`Vec.Dot`, `Vec.Square`), not as methods of the `Cart` class.
- The printing and formatting in coord_test.go is not modelled. Several of its examples use the old `Sphr` field names `Ra` and `Dec`. The FromSphrS, Sphr.FromCart and FromCartS examples need values of the trigonometric routines, so they are not restated. The FromSphr example is restated only symbolically, on longitude 0, by `Spherical.CartFromSphrOnPrimeMeridian`.
