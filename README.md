# Polygon path generator of hexagonpfp

This project models the polygon path generator of src/helpers.ts in Dafny. It covers `toCartesian` and `createPolygonPath`, including the nested `findMaxBound`. Given `sides`, `rotation` and `smoothness`, the generator returns a closed contour of `sides` cubic Bézier segments on the unit circle as an SVG path string. It also returns a square bound `bounds` and the `x`, `y`, `width`, `height` and `viewBox` derived from it.

Files and modules:

- `helpers.dfy`, module `Helpers`: the generator itself. These definitions follow the source line by line; the lemmas in the table state their properties.
  - `ToCartesian` (src/helpers.ts:11-21) and `UnitPoint`, the call with its defaults `d = 1` and `offset = [0, 0]` (src/helpers.ts:13-14).
  - `MaxSmooth`, `SectorAngle` and `RotationScaled`: `maxSmooth`, `angle` and `rotationScaled` (src/helpers.ts:34-37).
  - `VertexAngle` and `SegmentAt`: one segment at a given phase, as built both in `findMaxBound` (src/helpers.ts:41-51) and in the path (src/helpers.ts:74-86).
  - `BuildContour`: the start point and the `sides` segments (src/helpers.ts:38, 72-90).
  - `Blend` (src/helpers.ts:53-56), `FindMaxBound` (src/helpers.ts:40-57) and `Bounds` (src/helpers.ts:59-64).
  - `SegmentCommand` (src/helpers.ts:88), `SegmentCommands` and `PathString` (src/helpers.ts:72-90), and `ViewBox` (src/helpers.ts:95).
  - `CreatePolygonPath`: the whole result (src/helpers.ts:29-98).
- `geometry.dfy`, module `Geometry`: properties of points, segments and the bound.
- `serialisation.dfy`, module `Serialisation`: the path and viewBox strings are exactly their fields separated by single spaces.
- `strings.dfy`, module `Strings`: `Join` (JavaScript's `Array.prototype.join`), `Split` and the lemmas that relate them.

Numbers are Dafny `real`s. `Math.sin`, `Math.cos` and `Math.PI` are host functions. They are passed in as a `Trig` value (`sin`, `cos`, `pi`) instead of being computed. Each lemma states, as a precondition, the one fact about them that it needs:

- `Bounded`: sine and cosine lie in [-1, 1].
- `Periodic`: both repeat after 2π.
- `Pythagorean`: sin² + cos² = 1.

JavaScript's number-to-string conversion is likewise a parameter `fmt: real -> string`. The string lemmas assume only `NoSpaces(fmt)`: a number never prints with a space in it.

`sides` is an integer with precondition `sides >= 1`, because `PI / sides` and `1 / sides` divide by it (src/helpers.ts:34, 36). The only caller is `App` (src/app.tsx:36-40). It takes `sides` from a slider that parses with `parseInt` and has minimum 3, maximum 10 and step 1 (src/app.tsx:214-221). `rotation` and `smoothness` are unconstrained reals, as in the source.

Two details of the code that the model keeps as written:

- `findMaxBound(r)` builds segment index 1 at phase `r`. The phase is not shifted by `rotationScaled`, so `bounds` does not depend on `rotation` at all. `Bounds` takes no rotation argument, and `Geometry.RotationBySector` records the consequence for a rotation of one sector.
- The blend in `findMaxBound` is `0.25·C1 + 0.5·C2 + 0.25·P`. It leaves out the segment's start point, and the model reproduces it exactly (`Helpers.Blend`).

## Model

| member | source | states |
|---|---|---|
| Helpers.FindMaxBound | src/helpers.ts:40-57 | the sample is non-negative; it is at least the magnitude of the blended x and of the blended y of segment 1 at phase r, and equals one of them |
| Helpers.Bounds | src/helpers.ts:59-64 | `bounds` is at least 1 and at least each of `findMaxBound(0)`, `findMaxBound(angle)` and `findMaxBound(angle/2)`, and equals one of these four values |
| Helpers.BuildContour | src/helpers.ts:72-90 | the contour has exactly `sides` segments |
| Helpers.CreatePolygonPath | src/helpers.ts:29-98 | `x == y == -bounds` and `width == height == 2·bounds`; hence `x + width == bounds`, `bounds >= 1` and `width >= 2` |
| Geometry.ToCartesianDefaults | src/helpers.ts:11-21 | with `d = 1` and `offset = [0, 0]` the result is `(cos r, sin r)` |
| Geometry.ToCartesianTranslates | src/helpers.ts:11-21 | the result is the offset plus `d·(cos r, sin r)`; the result minus the offset does not depend on the offset |
| Geometry.ToCartesianDistance | src/helpers.ts:11-21 | given sin² + cos² = 1, the result lies at squared distance `d²` from the offset |
| Geometry.ToCartesianWithin | src/helpers.ts:11-21 | given bounded sine and cosine, each coordinate of the result differs from the offset's by at most `\|d\|` |
| Geometry.SectorsMakeTurn | src/helpers.ts:36 | `angle · sides` is exactly one turn, `TAU` |
| Geometry.VertexAngleStep | src/helpers.ts:74-86 | vertex i+1 is one sector past vertex i, and advancing the phase by one sector renumbers the vertices by one |
| Geometry.VertexAngleTurn | src/helpers.ts:74-86 | vertex `sides + i` is vertex i one whole turn further round |
| Geometry.FirstControlFromStart | src/helpers.ts:37-80 | the move-to point is the unit point at `rotationScaled`, and segment 0's first control point is offset from that start point |
| Geometry.ControlFromPreviousEnd | src/helpers.ts:74-80 | segment i's first control point is offset, at distance `smoothness·maxSmooth` a quarter turn ahead, from the end point of segment i-1 |
| Geometry.SecondControlFromOwnEnd | src/helpers.ts:74-86 | segment i's second control point is offset, a quarter turn behind, from segment i's own end point |
| Geometry.ContourCloses | src/helpers.ts:72-90 | given 2π-periodic trig, the last segment ends on the start point and its second control point is offset from the start point |
| Geometry.SharpCorners | src/helpers.ts:76-86 | at `smoothness == 0` segment i's first control point is vertex i (the start point for i = 0, the previous end point otherwise) and its second control point is its end point |
| Geometry.BlendOfEqual | src/helpers.ts:53-56 | the weights `(1-0.5)²`, `2(1-0.5)0.5` and `0.5²` sum to one: blending three equal values gives that value |
| Geometry.BlendWithin | src/helpers.ts:53-56 | a blend of three values within `[-k, k]` stays within `[-k, k]` |
| Geometry.SharpSampleAtMostOne | src/helpers.ts:40-57 | given bounded trig and `smoothness == 0`, every `findMaxBound` sample is at most 1 |
| Geometry.SharpBoundsIsOne | src/helpers.ts:59-64 | given bounded trig and `smoothness == 0`, `bounds == 1` |
| Geometry.BoundsAtLeastSharp | src/helpers.ts:59-64 | given bounded trig, no smoothness gives a bound below the bound at `smoothness == 0` |
| Geometry.VerticesOnUnitCircle | src/helpers.ts:72-74 | given sin² + cos² = 1, the start point and every segment end point lie on the unit circle |
| Geometry.UprightAngle | src/helpers.ts:36-37 | unrotated, vertex k lies at angle `2πk/sides − π/2` |
| Geometry.UnrotatedEndpoints | src/helpers.ts:72-74 | with `rotation == 0`, segment i ends at the unit point at angle `2π(i+1)/sides − π/2` |
| Geometry.SegmentShift | src/helpers.ts:74-86 | segment i at phase `p + angle` is segment i+1 at phase `p` |
| Geometry.SegmentWrap | src/helpers.ts:74-86 | given 2π-periodic trig, segment `sides` is segment 0 again |
| Geometry.RotationBySector | src/helpers.ts:37-90 | given 2π-periodic trig, `rotation + 1` starts the path at the old first end point and shifts the segments cyclically by one; `bounds` is unchanged |
| Serialisation.SegmentCommandIsJoin | src/helpers.ts:88 | a `C` command is `C x1 y1 x2 y2 x y` joined by single spaces |
| Serialisation.PathTokensLayout | src/helpers.ts:72-90 | the path's fields are `M sx sy`, then seven fields per segment: `C`, then `x1 y1 x2 y2 x y` in that order; there are `3 + 7·sides` fields |
| Serialisation.PathStringIsJoin | src/helpers.ts:72-90 | the path string is exactly its fields joined by single spaces |
| Serialisation.PathTokensFree | src/helpers.ts:72-90 | no field of the path contains a space |
| Serialisation.PathSplits | src/helpers.ts:72-90 | splitting the returned `path` at spaces gives back `M sx sy` and, for each of the `sides` segments in order, `C x1 y1 x2 y2 x y` |
| Serialisation.ViewBoxIsJoin | src/helpers.ts:95 | the viewBox string is its four fields joined by single spaces |
| Serialisation.ViewBoxSplits | src/helpers.ts:66-95 | splitting `viewBox` at spaces gives exactly `x`, `y`, `width`, `height` in that order, that is `-bounds -bounds 2·bounds 2·bounds` |
| Serialisation.SharpViewBox | src/helpers.ts:59-95 | given bounded trig, a sharp polygon has viewBox fields `-1 -1 2 2` |
| Strings.SplitJoin | src/helpers.ts:88-90 | splitting at a separator undoes `join` with it, provided no element contains the separator |
| Strings.JoinAppend | src/helpers.ts:88-90 | joining two non-empty lists is joining their joins with one separator between them |
| Strings.JoinConcat | src/helpers.ts:88-90 | joining the joins of non-empty lists is joining their concatenation |

## Left out

- `fileToDataUri`, `svgToPngDataUrl`, `cropImage`, `scaleImage` and `downloadDataUrl` (src/helpers.ts:100-219): asynchronous FileReader, Image, canvas, Blob and DOM plumbing with no logic to state.
- The React components (src/app.tsx, src/saved-pfp.tsx, src/drawer.tsx, src/cropper.tsx, src/range-slider.tsx, src/index.tsx), the throttled and deferred recomputation, and the random slider ids: UI state and scheduling around the pure generator.
- `isMobileDevice` and `assignId` are not part of this model: they are imported by the components but are not defined in helpers.ts.
- IEEE-754 rounding, `NaN` and `Infinity`: numbers are exact reals. So `sides == 0`, which JavaScript turns into `Infinity`, is excluded by the precondition `sides >= 1`. Non-integer `sides` is excluded by the type.
- Negative `sides` is excluded by the same precondition. The source accepts it: `Array.from({ length: sides })` is then empty, so the path is `M sx sy ` with a trailing space and no segments. The caller never passes it (src/app.tsx:214-221).
- The values of `Math.sin`, `Math.cos` and `Math.PI`, and JavaScript's number-to-string conversion, are parameters. So the model does not decide scenarios that need concrete trigonometric values, such as a rounded triangle having a bound above 1.
- That the rendered curve lies inside `[-bounds, bounds]²`: `findMaxBound` samples three phases as a heuristic, and the model reproduces the sampling, not a containment proof.
- Referential transparency (same inputs give the same outputs) holds of every Dafny function by construction and is not stated as a lemma.
