# uMath3D: RGB565 colours and the screen-space raster triangle

This project models two pieces of the uMath3D rendering core in Dafny and proves
what they promise.

- **`RGBColor`** keeps a colour as three 8-bit channels `r`, `g`, `b` and as the
  packed 16-bit RGB565 value `color` (bits `RRRRRGGGGGGBBBBB`). `SetColor` and the
  constructors keep the two in step. `Scale` and `Add` build new colours channel
  by channel with integer arithmetic.
- **`RasterTriangle2D`** is a triangle projected to screen space. From its three
  vertices it precomputes:
  - the edge vectors;
  - the inverse of the barycentric determinant, or a `0` sentinel when the
    triangle is degenerate;
  - the axis-aligned bounding box.

  Its containment query solves for barycentric weights `(u, v, w)` by Cramer's
  rule and counts edges and vertices as inside.

Files:
- `wrappers.dfy` holds `Option`.
- `geometry.dfy` holds the parts of the math library the rasteriser uses. These
  are vectors, the rectangle, `Abs`, three-way `Min`/`Max` and `EPSILON`.
- `rgbcolor565.dfy` models the colour.
- `rastertriangle2d.dfy` models the triangle.

`float` is modelled as exact `real`. `EPSILON` is a positive constant whose value
is left open. So every property proved about the triangle holds for every
positive epsilon. Pointers are modelled as opaque references (`Ref`): `Null`, or
an address.

The guard on the stored inverse has a consequence. Construction stores `1/d` only
when `|d| > EPSILON`. The query exits early when `|1/d| < EPSILON`. So a triangle
whose determinant exceeds `1/EPSILON` in magnitude misses every point, just like
a degenerate one (`QueryMissIff`).

## Model

| member | source | states |
|---|---|---|
| RGBColor565.Pack565 | lib/uc3d/core/color/rgbcolor565.hpp:135-139 | The packed value holds the top 5 bits of red in bits 15-11, the top 6 of green in bits 10-5 and the top 5 of blue in bits 4-0. Its type is 16 bits wide, so it is always below 65536. |
| RGBColor565.PackEqualIff | lib/uc3d/core/color/rgbcolor565.hpp:25-31 | Two channel triples pack to the same value if and only if they agree in their top 5/6/5 bits. |
| RGBColor565.ScaleChannel | lib/uc3d/core/color/rgbcolor565.hpp:75-77 | The scaled channel is `c * m / 255` rounded down, never brighter than `c`. `m = 255` keeps `c` and `m = 0` gives 0. |
| RGBColor565.ScaleMonotone | lib/uc3d/core/color/rgbcolor565.hpp:74-79 | A larger brightness limit never gives a darker channel. |
| RGBColor565.Constrain | lib/uc3d/core/color/rgbcolor565.hpp:88 | The clamp returns a value within [minimum, maximum], and returns a value already in range unchanged. |
| RGBColor565.ToByte | lib/uc3d/core/color/rgbcolor565.hpp:88 | Conversion to `uint8_t` is reduction modulo 256. It is the identity below 256. |
| RGBColor565.AddChannelAsWritten | lib/uc3d/core/color/rgbcolor565.hpp:87-89 | The channel lambda of `Add` as written gives `c + value` when the sum fits in a byte. Otherwise it gives `c + value - 256`. |
| RGBColor565.AddChannelAsWrittenWraps | lib/uc3d/core/color/rgbcolor565.hpp:86-91 | As written, 200 + 100 gives 44: some channel gets darker by an addition. |
| RGBColor565.AddChannel | lib/uc3d/core/color/rgbcolor565.hpp:86-91 | The saturating sum: `c + value` when it fits, else 255. |
| RGBColor565.AddChannelSaturates | lib/uc3d/core/color/rgbcolor565.hpp:86-91 | The saturating sum never darkens a channel, and adding 0 is the identity. It grows with the added value. It agrees with the code as written exactly when `c + value <= 255`. |
| RGBColor565.RGBColor.constructor | lib/uc3d/core/color/rgbcolor565.hpp:31-36 | A default colour is black: every channel and the packed value are 0, and the invariant holds. |
| RGBColor565.RGBColor.FromChannels | lib/uc3d/core/color/rgbcolor565.hpp:44 | The channels are stored as given, and `color` is their packing. |
| RGBColor565.RGBColor.Copy | lib/uc3d/core/color/rgbcolor565.hpp:50 | Every field is copied, so a consistent colour gives a consistent copy. |
| RGBColor565.RGBColor.SetColor | lib/uc3d/core/color/rgbcolor565.hpp:64-67 | The channels equal the inputs unchanged, and `color` is their packing. |
| RGBColor565.RGBColor.Pack | lib/uc3d/core/color/rgbcolor565.hpp:135-139 | Only `color` changes. It becomes the packing of the current channels, which restores the invariant. |
| RGBColor565.RGBColor.Scale | lib/uc3d/core/color/rgbcolor565.hpp:74-79 | It returns a new consistent colour whose channels are the scaled channels. The receiver is not modified. |
| RGBColor565.RGBColor.Add | lib/uc3d/core/color/rgbcolor565.hpp:86-91 | It returns a new consistent colour whose channels are the saturating sums. The receiver is not modified. |
| Geometry.Abs | lib/uc3d/systems/render/raster/helpers/rastertriangle2d.cpp:53 | The absolute value is non-negative and equals `x` or `-x`. |
| Geometry.Min3 | lib/uc3d/systems/render/raster/helpers/rastertriangle2d.cpp:61-62 | The result is at most each argument and is one of them. |
| Geometry.Max3 | lib/uc3d/systems/render/raster/helpers/rastertriangle2d.cpp:63-64 | The result is at least each argument and is one of them. |
| RasterTriangle.StoredDenominator | lib/uc3d/systems/render/raster/helpers/rastertriangle2d.cpp:50-57 | When `abs(d) > EPSILON` the stored value times `d` is 1. Otherwise the stored value is exactly 0. |
| RasterTriangle.BoundsOf | lib/uc3d/systems/render/raster/helpers/rastertriangle2d.cpp:60-65 | The box has min <= max on each axis and contains every vertex. |
| RasterTriangle.BoundsTightest | lib/uc3d/systems/render/raster/helpers/rastertriangle2d.cpp:60-65 | Every rectangle that holds the three vertices holds the box. |
| RasterTriangle.Solve | lib/uc3d/systems/render/raster/helpers/rastertriangle2d.cpp:68-82 | The query exits early exactly when `abs(denominator) < EPSILON`. Otherwise its weights sum to 1. |
| RasterTriangle.GuardIff | lib/uc3d/systems/render/raster/helpers/rastertriangle2d.cpp:53-70 | For a stored magnitude `s` and a determinant magnitude `a`, `s < EPSILON` holds exactly when `a <= EPSILON` or `EPSILON * a > 1`. |
| RasterTriangle.StoredMagnitude | lib/uc3d/systems/render/raster/helpers/rastertriangle2d.cpp:53-57 | The stored value has the inverse magnitude of a determinant past the guard, and is 0 otherwise. |
| RasterTriangle.InverseGuard | lib/uc3d/systems/render/raster/helpers/rastertriangle2d.cpp:53-70 | The stored value fails the query guard exactly when `abs(d) <= EPSILON` or `abs(d) > 1/EPSILON`. |
| RasterTriangle.QueryMissIff | lib/uc3d/systems/render/raster/helpers/rastertriangle2d.cpp:45-70 | A triangle misses every point exactly when it is degenerate (`abs(d) <= EPSILON`) or very large (`EPSILON * abs(d) > 1`). |
| RasterTriangle.CramerIdentity | lib/uc3d/systems/render/raster/helpers/rastertriangle2d.cpp:76-77 | The two cross products the query computes rebuild `d * q` from the edge vectors. |
| RasterTriangle.QueryIsBarycentric | lib/uc3d/systems/render/raster/helpers/rastertriangle2d.cpp:72-78 | Without the early exit, `(x, y) = u*p1 + v*p2 + w*p3` with `u + v + w = 1`. |
| RasterTriangle.BarycentricUnique | lib/uc3d/systems/render/raster/helpers/rastertriangle2d.cpp:76-78 | For a triangle of non-zero area, the barycentric weights of a point are unique. |
| RasterTriangle.QueryCharacterised | lib/uc3d/systems/render/raster/helpers/rastertriangle2d.cpp:68-81 | Without the early exit, a triple is barycentric for the point if and only if it is the query's answer. |
| RasterTriangle.VertexWeights | lib/uc3d/systems/render/raster/helpers/rastertriangle2d.cpp:73-81 | For a triangle past the query guard, `p1`, `p2`, `p3` get weights (1,0,0), (0,1,0), (0,0,1), and each is reported as inside. |
| RasterTriangle.CombinationInBounds | lib/uc3d/systems/render/raster/helpers/rastertriangle2d.cpp:60-65 | A non-negative barycentric combination of the vertices lies in their bounding box. |
| RasterTriangle.CoveredInBounds | lib/uc3d/systems/render/raster/helpers/rastertriangle2d.cpp:61-81 | A point reported as inside lies in the bounding box. |
| RasterTriangle.CollinearMisses | lib/uc3d/systems/render/raster/helpers/rastertriangle2d.cpp:51-70 | For any two vertices and any third vertex on the line through them (`p1 + t * (p2 - p1)`), the triangle misses every point. |
| RasterTriangle.RightTriangleSolves | lib/uc3d/systems/render/raster/helpers/rastertriangle2d.cpp:68-82 | The triangle (0,0), (4,0), (0,4) with `EPSILON <= 1/16` gives `(1 - x/4 - y/4, x/4, y/4)` at every point. |
| RasterTriangle.RightTriangleCovers | lib/uc3d/systems/render/raster/helpers/rastertriangle2d.cpp:80-81 | On that triangle a point is inside exactly when `x >= 0`, `y >= 0` and `x + y <= 4`, boundary included. |
| RasterTriangle.RasterTriangle2D.constructor | lib/uc3d/systems/render/raster/helpers/rastertriangle2d.cpp:3-7 | Every pointer is null, `hasUV` is false, the depth is 0, the denominator is 0 and the bounds are (0,0)-(1,1). Every query misses. |
| RasterTriangle.RasterTriangle2D.Project | lib/uc3d/systems/render/raster/helpers/rastertriangle2d.cpp:9-42 | The pointers and the UV flag are copied from the source. The UV pointers are copied only when the flag is set. The vertices are the projected x and y. `averageDepth` is the mean of the projected z values. The derived data are consistent with the vertices. |
| RasterTriangle.RasterTriangle2D.CalculateBoundsAndDenominator | lib/uc3d/systems/render/raster/helpers/rastertriangle2d.cpp:45-66 | Only the derived fields change. The edge vectors become `p2 - p1` and `p3 - p1`, the stored denominator becomes the guarded inverse of the determinant, and the bounds become the vertices' box. |
| RasterTriangle.RasterTriangle2D.GetBarycentricCoords | lib/uc3d/systems/render/raster/helpers/rastertriangle2d.cpp:68-82 | On the early exit it returns false and leaves `u, v, w` unchanged. Otherwise it returns the Cramer weights, which sum to 1. The result is true exactly when all three weights are non-negative. For a triangle whose derived data are consistent with its vertices (after `Project` or `CalculateBoundsAndDenominator`), the weights also reproduce the point, and a point reported as inside lies in the bounds. |
| RasterTriangle.RasterTriangle2D.Overlaps | lib/uc3d/systems/render/raster/helpers/rastertriangle2d.cpp:84-87 | The result is the bounding-box overlap test, which changes nothing. It is sound for culling: a rectangle holding a covered point always overlaps. |
| RasterTriangle.RasterTriangle2D.GetMaterial | lib/uc3d/systems/render/raster/helpers/rastertriangle2d.cpp:89-91 | It returns the stored material and changes nothing. |

## Left out

- `HueShift`, `InterpolateColors` and `RGBColor(const Vector3D&)` are not modelled. They rely on float trigonometry, quaternion rotation and float-to-byte truncation.
- `ToString` (in both classes) is not modelled. It is string formatting through an external string type.
- The 3D projection in the projecting constructor (rastertriangle2d.cpp lines 27-30) is not modelled. It uses the external quaternion and transform library, so the projected points are inputs.
- Float rounding, NaN and infinity are not modelled: `float` is exact `real`. Exactness is what makes `u + v + w == 1` and the vertex weights hold exactly.
- The value of `EPSILON` is not fixed. The model takes it as an unspecified positive constant.
- `Rectangle2D::Overlaps` is not part of this model. It is taken to be the closed axis-aligned overlap test.
- `Triangle2D` and the class header are not part of this model. A default-constructed triangle's vertices, and its edge vectors `v0` and `v1`, which the default constructor does not set, are taken to be the origin.
- RasterTriangle.RasterTriangle2D.constructor: the default bounds (0,0)-(1,1) are not the box of its vertices. So the consistency invariant is not claimed for a default triangle, only that every query misses.
- RasterTriangle.RasterTriangle2D.Project: when the source has no UVs, the UV pointers are left unspecified, as the source leaves them unassigned.
- The channels of `RGBColor` are public, and a direct write to them can break `color == Pack(r, g, b)`. The model holds the invariant after the class's own operations only.
- `Mathematics::Constrain` is not part of this model. Its parameters are taken to have the explicit template type `uint8_t`.
- RGBColor565.RGBColor.Add: the model uses the saturating sum rather than the wrapping sum as written. See Findings; `AddChannelAsWritten` models the code as written.

## Findings

| source | as written | input that shows it | evidently intended | confidence | as-written member | corrected member |
|---|---|---|---|---|---|---|
| lib/uc3d/core/color/rgbcolor565.hpp:86-91 | `Constrain<uint8_t>(c + value, 0, 255)` converts the `int` sum to `uint8_t` before clamping, so a sum past 255 wraps modulo 256 and the clamp does nothing | `c = 200`, `value = 100` gives 44 instead of 255 | a saturating add: clamp the `int` sum to [0, 255], then narrow | medium (assumes `Constrain<T>(T, T, T)`, whose declaration is not part of this model); not executed | RGBColor565.AddChannelAsWritten, RGBColor565.AddChannelAsWrittenWraps | RGBColor565.AddChannel, RGBColor565.AddChannelSaturates |
