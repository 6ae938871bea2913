/**
 The polygon path generator of src/helpers.ts: `toCartesian` and
 `createPolygonPath` with its nested `findMaxBound`.

 Numbers are reals. `Math.sin`, `Math.cos` and `Math.PI` are not computed
 here: they arrive as a `Trig` value, and what the proofs need of them is
 stated as predicates over it. JavaScript's number-to-string conversion
 arrives likewise as a function `fmt`.
 */
module Helpers {
  import opened Strings

  /** The host's `Math.sin`, `Math.cos` and `Math.PI`. */
  datatype Trig = Trig(sin: real -> real, cos: real -> real, pi: real)

  /** Sine and cosine stay within [-1, 1]. */
  ghost predicate Bounded(m: Trig) {
    forall r :: -1.0 <= m.sin(r) <= 1.0 && -1.0 <= m.cos(r) <= 1.0
  }

  /** Sine and cosine repeat after one full turn. */
  ghost predicate Periodic(m: Trig) {
    forall r {:trigger m.sin(r + Tau(m))} {:trigger m.cos(r + Tau(m))} ::
      m.sin(r + Tau(m)) == m.sin(r) && m.cos(r + Tau(m)) == m.cos(r)
  }

  /** sin² + cos² = 1. */
  ghost predicate Pythagorean(m: Trig) {
    forall r :: m.sin(r) * m.sin(r) + m.cos(r) * m.cos(r) == 1.0
  }

  /** `TAU`, one full turn in radians. */
  function Tau(m: Trig): real {
    2.0 * m.pi
  }

  datatype Point = Point(x: real, y: real)

  const Origin := Point(0.0, 0.0)

  /** The point at angle `r` and distance `d` from `offset`. */
  function ToCartesian(m: Trig, r: real, d: real, offset: Point): Point {
    Point(offset.x + m.cos(r) * d, offset.y + m.sin(r) * d)
  }

  /** `toCartesian({ r })`: the defaults `d = 1` and `offset = [0, 0]`. */
  function UnitPoint(m: Trig, r: real): Point {
    ToCartesian(m, r, 1.0, Origin)
  }

  /** One `C` command: two control points and the end point of a cubic Bézier segment. */
  datatype Segment = Segment(c1: Point, c2: Point, end: Point)

  /** The path: a move-to `start`, then `segments` in order. */
  datatype Contour = Contour(start: Point, segments: seq<Segment>)

  /** What `createPolygonPath` returns. */
  datatype PolygonPath = PolygonPath(
    path: string, x: real, y: real, width: real, height: real, viewBox: string, bounds: real)

  /** `maxSmooth`: the chord between neighbouring vertices of the unit polygon. */
  function MaxSmooth(m: Trig, sides: int): real
    requires sides >= 1
  {
    2.0 * m.sin(m.pi / sides as real)
  }

  /** `angle`: the sector one side subtends at the centre. */
  function SectorAngle(m: Trig, sides: int): real
    requires sides >= 1
  {
    (1.0 / sides as real) * Tau(m)
  }

  /** `rotationScaled`: `rotation` sectors, turned a quarter back so the shape points up. */
  function RotationScaled(m: Trig, sides: int, rotation: real): real
    requires sides >= 1
  {
    rotation * SectorAngle(m, sides) - Tau(m) / 4.0
  }

  /** The angle of vertex `i` of the polygon turned by `phase`: `angle * i + phase`. */
  function VertexAngle(m: Trig, sides: int, phase: real, i: int): real
    requires sides >= 1
  {
    SectorAngle(m, sides) * i as real + phase
  }

  /**
   Segment `i` of the polygon turned by `phase`: it ends on vertex i+1; its
   first control point lies a quarter turn ahead of vertex i, its second a
   quarter turn behind vertex i+1, both at distance `smoothness * maxSmooth`
   from their vertex.
   */
  function SegmentAt(m: Trig, sides: int, smoothness: real, phase: real, i: int): Segment
    requires sides >= 1
  {
    var reach := smoothness * MaxSmooth(m, sides);
    var here := VertexAngle(m, sides, phase, i);
    var next := VertexAngle(m, sides, phase, i + 1);
    Segment(
      ToCartesian(m, here + Tau(m) / 4.0, reach, UnitPoint(m, here)),
      ToCartesian(m, next - Tau(m) / 4.0, reach, UnitPoint(m, next)),
      UnitPoint(m, next))
  }

  /** The contour of `createPolygonPath`: one segment per side, from the vertex at `rotationScaled`. */
  function BuildContour(m: Trig, sides: int, rotation: real, smoothness: real): (c: Contour)
    requires sides >= 1
    ensures |c.segments| == sides
  {
    var phase := RotationScaled(m, sides, rotation);
    Contour(UnitPoint(m, phase),
            seq(sides, i requires 0 <= i < sides => SegmentAt(m, sides, smoothness, phase, i)))
  }

  function Abs(v: real): real {
    if v < 0.0 then -v else v
  }

  function Max(a: real, b: real): real {
    if a < b then b else a
  }

  /**
   The blend `findMaxBound` samples: weights (1-0.5)², 2(1-0.5)0.5 and 0.5²
   on the first control point, the second control point and the end point.
   The segment's start point takes no part.
   */
  function Blend(c1: real, c2: real, end: real): real {
    (1.0 - 0.5) * (1.0 - 0.5) * c1 + 2.0 * (1.0 - 0.5) * 0.5 * c2 + 0.5 * 0.5 * end
  }

  /** `findMaxBound(r)`: the larger coordinate magnitude of the blend of segment 1 at phase `r`. */
  function FindMaxBound(m: Trig, sides: int, smoothness: real, r: real): (b: real)
    requires sides >= 1
    ensures b >= 0.0
    ensures var s := SegmentAt(m, sides, smoothness, r, 1);
      && b >= Abs(Blend(s.c1.x, s.c2.x, s.end.x))
      && b >= Abs(Blend(s.c1.y, s.c2.y, s.end.y))
      && (b == Abs(Blend(s.c1.x, s.c2.x, s.end.x)) || b == Abs(Blend(s.c1.y, s.c2.y, s.end.y)))
  {
    var s := SegmentAt(m, sides, smoothness, r, 1);
    Max(Abs(Blend(s.c1.x, s.c2.x, s.end.x)), Abs(Blend(s.c1.y, s.c2.y, s.end.y)))
  }

  /** `bounds`: the largest of 1 and the samples at phases 0, one sector and half a sector. */
  function Bounds(m: Trig, sides: int, smoothness: real): (b: real)
    requires sides >= 1
    ensures var angle := SectorAngle(m, sides);
      && b >= 1.0
      && b >= FindMaxBound(m, sides, smoothness, 0.0)
      && b >= FindMaxBound(m, sides, smoothness, angle)
      && b >= FindMaxBound(m, sides, smoothness, angle / 2.0)
      && (|| b == 1.0
          || b == FindMaxBound(m, sides, smoothness, 0.0)
          || b == FindMaxBound(m, sides, smoothness, angle)
          || b == FindMaxBound(m, sides, smoothness, angle / 2.0))
  {
    var angle := SectorAngle(m, sides);
    Max(Max(Max(1.0, FindMaxBound(m, sides, smoothness, 0.0)),
            FindMaxBound(m, sides, smoothness, angle)),
        FindMaxBound(m, sides, smoothness, angle / 2.0))
  }

  /** `C x1 y1 x2 y2 x y`. */
  function SegmentCommand(fmt: real -> string, s: Segment): string {
    "C " + Join([fmt(s.c1.x), fmt(s.c1.y), fmt(s.c2.x), fmt(s.c2.y), fmt(s.end.x), fmt(s.end.y)], ' ')
  }

  /** `Array.from({ length: sides }).map(...)`: one command per segment, in order. */
  function SegmentCommands(fmt: real -> string, segments: seq<Segment>): (r: seq<string>)
    ensures |r| == |segments|
  {
    seq(|segments|, i requires 0 <= i < |segments| => SegmentCommand(fmt, segments[i]))
  }

  /** The `path` string: `M sx sy`, a space, then the segment commands joined by spaces. */
  function PathString(fmt: real -> string, c: Contour): string {
    "M " + fmt(c.start.x) + " " + fmt(c.start.y) + " " + Join(SegmentCommands(fmt, c.segments), ' ')
  }

  /** The `viewBox` string `x y width height`. */
  function ViewBox(fmt: real -> string, x: real, y: real, width: real, height: real): string {
    fmt(x) + " " + fmt(y) + " " + fmt(width) + " " + fmt(height)
  }

  /** `createPolygonPath({ rotation, sides, smoothness })`. */
  function CreatePolygonPath(m: Trig, fmt: real -> string, rotation: real, sides: int, smoothness: real)
    : (p: PolygonPath)
    requires sides >= 1
    ensures p.bounds == Bounds(m, sides, smoothness) && p.bounds >= 1.0
    ensures p.x == p.y == -p.bounds
    ensures p.width == p.height == 2.0 * p.bounds
    ensures p.x + p.width == p.bounds && p.width >= 2.0
  {
    var bounds := Bounds(m, sides, smoothness);
    var x := -bounds;
    var y := -bounds;
    var width := 2.0 * bounds;
    var height := 2.0 * bounds;
    PolygonPath(PathString(fmt, BuildContour(m, sides, rotation, smoothness)),
                x, y, width, height, ViewBox(fmt, x, y, width, height), bounds)
  }
}
