/**
 What the contour and the bound of `createPolygonPath` satisfy: how
 `toCartesian` places points, how consecutive segments meet, that the
 contour closes, the sharp-corner case, and how a rotation by one whole
 sector permutes the segments.
 */
module Geometry {
  import opened Helpers

  function Add(a: Point, b: Point): Point {
    Point(a.x + b.x, a.y + b.y)
  }

  function Sub(a: Point, b: Point): Point {
    Point(a.x - b.x, a.y - b.y)
  }

  function Scale(k: real, a: Point): Point {
    Point(k * a.x, k * a.y)
  }

  /** Squared distance from the origin. */
  function SqNorm(a: Point): real {
    a.x * a.x + a.y * a.y
  }

  /** With its defaults `toCartesian` gives `(cos r, sin r)`. */
  lemma ToCartesianDefaults(m: Trig, r: real)
    ensures UnitPoint(m, r) == Point(m.cos(r), m.sin(r))
  {
  }

  /** `toCartesian` translates the unit point by `offset` after scaling it by `d`. */
  lemma ToCartesianTranslates(m: Trig, r: real, d: real, offset: Point)
    ensures ToCartesian(m, r, d, offset) == Add(offset, Scale(d, UnitPoint(m, r)))
    ensures Sub(ToCartesian(m, r, d, offset), offset) == ToCartesian(m, r, d, Origin)
  {
  }

  /** The displacement from `offset` has length `|d|`. */
  lemma ToCartesianDistance(m: Trig, r: real, d: real, offset: Point)
    requires Pythagorean(m)
    ensures SqNorm(Sub(ToCartesian(m, r, d, offset), offset)) == d * d
  {
    var c, s := m.cos(r), m.sin(r);
    var p := ToCartesian(m, r, d, offset);
    assert p.x - offset.x == c * d && p.y - offset.y == s * d;
    calc {
      (c * d) * (c * d) + (s * d) * (s * d);
      (c * c + s * s) * (d * d);
      { assert s * s + c * c == 1.0; }
      d * d;
    }
  }

  /** Each coordinate of the displacement is at most `|d|` in size. */
  lemma ToCartesianWithin(m: Trig, r: real, d: real, offset: Point)
    requires Bounded(m)
    ensures var p := ToCartesian(m, r, d, offset);
      Abs(p.x - offset.x) <= Abs(d) && Abs(p.y - offset.y) <= Abs(d)
  {
    var p := ToCartesian(m, r, d, offset);
    ProductWithin(m.cos(r), d);
    ProductWithin(m.sin(r), d);
    assert p.x - offset.x == m.cos(r) * d && p.y - offset.y == m.sin(r) * d;
  }

  lemma ProductWithin(c: real, d: real)
    requires -1.0 <= c <= 1.0
    ensures Abs(c * d) <= Abs(d)
  {
    var e := Abs(d);
    MulNonneg(1.0 - c, e);
    MulNonneg(1.0 + c, e);
    assert c * d == c * e || c * d == -(c * e);
  }

  lemma MulNonneg(a: real, b: real)
    requires a >= 0.0 && b >= 0.0
    ensures a * b >= 0.0
  {
  }

  /** `angle * sides` is one full turn. */
  lemma SectorsMakeTurn(m: Trig, sides: int)
    requires sides >= 1
    ensures SectorAngle(m, sides) * sides as real == Tau(m)
  {
    var n := sides as real;
    calc {
      SectorAngle(m, sides) * n;
      (1.0 / n) * Tau(m) * n;
      ((1.0 / n) * n) * Tau(m);
      { assert (1.0 / n) * n == 1.0; }
      Tau(m);
    }
  }

  /** Under periodicity, a point a whole turn further round is the same point. */
  lemma ToCartesianPeriodic(m: Trig, r: real, d: real, offset: Point)
    requires Periodic(m)
    ensures ToCartesian(m, r + Tau(m), d, offset) == ToCartesian(m, r, d, offset)
  {
    assert m.sin(r + Tau(m)) == m.sin(r) && m.cos(r + Tau(m)) == m.cos(r);
    assert ToCartesian(m, r + Tau(m), d, offset).x == offset.x + m.cos(r + Tau(m)) * d;
  }

  /** Segment `i` of the contour is the source's segment `i` at phase `rotationScaled`. */
  lemma ContourSegment(m: Trig, sides: int, rotation: real, smoothness: real, i: int)
    requires sides >= 1 && 0 <= i < sides
    ensures BuildContour(m, sides, rotation, smoothness).segments[i]
         == SegmentAt(m, sides, smoothness, RotationScaled(m, sides, rotation), i)
  {
  }

  /** Vertex i+1 is one sector further round than vertex i. */
  lemma VertexAngleStep(m: Trig, sides: int, phase: real, i: int)
    requires sides >= 1
    ensures VertexAngle(m, sides, phase, i + 1) == VertexAngle(m, sides, phase, i) + SectorAngle(m, sides)
    ensures VertexAngle(m, sides, phase + SectorAngle(m, sides), i) == VertexAngle(m, sides, phase, i + 1)
  {
    var angle := SectorAngle(m, sides);
    assert angle * (i + 1) as real == angle * i as real + angle;
  }

  /** Vertex `sides + i` is vertex `i` a whole turn further round. */
  lemma VertexAngleTurn(m: Trig, sides: int, phase: real, i: int)
    requires sides >= 1
    ensures VertexAngle(m, sides, phase, sides + i) == VertexAngle(m, sides, phase, i) + Tau(m)
  {
    var angle := SectorAngle(m, sides);
    SectorsMakeTurn(m, sides);
    assert angle * (sides + i) as real == angle * sides as real + angle * i as real;
  }

  /** Segment 0's first control point hangs off the start point. */
  lemma FirstControlFromStart(m: Trig, sides: int, rotation: real, smoothness: real)
    requires sides >= 1
    ensures var c := BuildContour(m, sides, rotation, smoothness);
      var phase := RotationScaled(m, sides, rotation);
      && c.start == UnitPoint(m, phase)
      && c.segments[0].c1 == ToCartesian(m, phase + Tau(m) / 4.0, smoothness * MaxSmooth(m, sides), c.start)
  {
    ContourSegment(m, sides, rotation, smoothness, 0);
    assert VertexAngle(m, sides, RotationScaled(m, sides, rotation), 0) == RotationScaled(m, sides, rotation);
  }

  /** Segment i's first control point hangs off the end point of segment i-1. */
  lemma ControlFromPreviousEnd(m: Trig, sides: int, rotation: real, smoothness: real, i: int)
    requires sides >= 1 && 1 <= i < sides
    ensures var c := BuildContour(m, sides, rotation, smoothness);
      var phase := RotationScaled(m, sides, rotation);
      c.segments[i].c1 == ToCartesian(m, VertexAngle(m, sides, phase, i) + Tau(m) / 4.0,
                                      smoothness * MaxSmooth(m, sides), c.segments[i - 1].end)
  {
    var phase := RotationScaled(m, sides, rotation);
    var here := VertexAngle(m, sides, phase, i);
    ContourSegment(m, sides, rotation, smoothness, i);
    ContourSegment(m, sides, rotation, smoothness, i - 1);
    assert (i - 1) + 1 == i;
    assert SegmentAt(m, sides, smoothness, phase, i - 1).end == UnitPoint(m, here);
    assert SegmentAt(m, sides, smoothness, phase, i).c1
        == ToCartesian(m, here + Tau(m) / 4.0, smoothness * MaxSmooth(m, sides), UnitPoint(m, here));
  }

  /** Segment i's second control point hangs off segment i's own end point. */
  lemma SecondControlFromOwnEnd(m: Trig, sides: int, rotation: real, smoothness: real, i: int)
    requires sides >= 1 && 0 <= i < sides
    ensures var c := BuildContour(m, sides, rotation, smoothness);
      var phase := RotationScaled(m, sides, rotation);
      c.segments[i].c2 == ToCartesian(m, VertexAngle(m, sides, phase, i + 1) - Tau(m) / 4.0,
                                      smoothness * MaxSmooth(m, sides), c.segments[i].end)
  {
    var phase := RotationScaled(m, sides, rotation);
    var next := VertexAngle(m, sides, phase, i + 1);
    var s := SegmentAt(m, sides, smoothness, phase, i);
    ContourSegment(m, sides, rotation, smoothness, i);
    assert s.end == UnitPoint(m, next);
    assert s.c2 == ToCartesian(m, next - Tau(m) / 4.0, smoothness * MaxSmooth(m, sides), UnitPoint(m, next));
  }

  /** The last segment ends on the start point, and its second control point hangs off it. */
  lemma {:induction false} ContourCloses(m: Trig, sides: int, rotation: real, smoothness: real)
    requires sides >= 1 && Periodic(m)
    ensures var c := BuildContour(m, sides, rotation, smoothness);
      var phase := RotationScaled(m, sides, rotation);
      var reach := smoothness * MaxSmooth(m, sides);
      && c.segments[sides - 1].end == c.start
      && c.segments[sides - 1].c2 == ToCartesian(m, phase - Tau(m) / 4.0, reach, c.start)
  {
    var c := BuildContour(m, sides, rotation, smoothness);
    var phase := RotationScaled(m, sides, rotation);
    var reach := smoothness * MaxSmooth(m, sides);
    ContourSegment(m, sides, rotation, smoothness, sides - 1);
    VertexAngleTurn(m, sides, phase, 0);
    assert VertexAngle(m, sides, phase, 0) == phase;
    ToCartesianPeriodic(m, phase, 1.0, Origin);
    ToCartesianPeriodic(m, phase - Tau(m) / 4.0, reach, c.start);
    assert (phase + Tau(m)) - Tau(m) / 4.0 == (phase - Tau(m) / 4.0) + Tau(m);
  }

  /** With `smoothness == 0` every segment is the straight edge from vertex i to vertex i+1. */
  lemma SharpCorners(m: Trig, sides: int, rotation: real)
    requires sides >= 1
    ensures var c := BuildContour(m, sides, rotation, 0.0);
      var phase := RotationScaled(m, sides, rotation);
      && c.segments[0].c1 == c.start
      && (forall i :: 1 <= i < sides ==> c.segments[i].c1 == c.segments[i - 1].end)
      && (forall i :: 0 <= i < sides ==>
            c.segments[i].c1 == UnitPoint(m, VertexAngle(m, sides, phase, i)) && c.segments[i].c2 == c.segments[i].end)
  {
    var c := BuildContour(m, sides, rotation, 0.0);
    var phase := RotationScaled(m, sides, rotation);
    assert 0.0 * MaxSmooth(m, sides) == 0.0;
    ContourSegment(m, sides, rotation, 0.0, 0);
    assert VertexAngle(m, sides, phase, 0) == phase;
    forall i | 1 <= i < sides
      ensures c.segments[i].c1 == c.segments[i - 1].end
    {
      ContourSegment(m, sides, rotation, 0.0, i);
      ContourSegment(m, sides, rotation, 0.0, i - 1);
    }
    forall i | 0 <= i < sides
      ensures c.segments[i].c1 == UnitPoint(m, VertexAngle(m, sides, phase, i)) && c.segments[i].c2 == c.segments[i].end
    {
      ContourSegment(m, sides, rotation, 0.0, i);
    }
  }

  /** The blend weights sum to one: blending three equal values gives that value. */
  lemma BlendOfEqual(v: real)
    ensures Blend(v, v, v) == v
  {
  }

  /** A blend of values within `[-k, k]` stays within `[-k, k]`. */
  lemma BlendWithin(a: real, b: real, c: real, k: real)
    requires Abs(a) <= k && Abs(b) <= k && Abs(c) <= k
    ensures Abs(Blend(a, b, c)) <= k
  {
  }

  /** With sharp corners each sample of `findMaxBound` is at most 1. */
  lemma SharpSampleAtMostOne(m: Trig, sides: int, r: real)
    requires sides >= 1 && Bounded(m)
    ensures FindMaxBound(m, sides, 0.0, r) <= 1.0
  {
    var s := SegmentAt(m, sides, 0.0, r, 1);
    var here, next := VertexAngle(m, sides, r, 1), VertexAngle(m, sides, r, 2);
    assert 0.0 * MaxSmooth(m, sides) == 0.0;
    assert s.c1 == UnitPoint(m, here) && s.c2 == s.end && s.end == UnitPoint(m, next);
    assert -1.0 <= m.cos(here) <= 1.0 && -1.0 <= m.sin(here) <= 1.0;
    assert -1.0 <= m.cos(next) <= 1.0 && -1.0 <= m.sin(next) <= 1.0;
    BlendWithin(s.c1.x, s.c2.x, s.end.x, 1.0);
    BlendWithin(s.c1.y, s.c2.y, s.end.y, 1.0);
  }

  /** With sharp corners the floor of 1 is the bound. */
  lemma {:induction false} SharpBoundsIsOne(m: Trig, sides: int)
    requires sides >= 1 && Bounded(m)
    ensures Bounds(m, sides, 0.0) == 1.0
  {
    var angle := SectorAngle(m, sides);
    SharpSampleAtMostOne(m, sides, 0.0);
    SharpSampleAtMostOne(m, sides, angle);
    SharpSampleAtMostOne(m, sides, angle / 2.0);
  }

  /** No smoothness gives a bound below the sharp polygon's. */
  lemma {:induction false} BoundsAtLeastSharp(m: Trig, sides: int, smoothness: real)
    requires sides >= 1 && Bounded(m)
    ensures Bounds(m, sides, smoothness) >= Bounds(m, sides, 0.0)
  {
    SharpBoundsIsOne(m, sides);
  }

  /** Every vertex, the start point included, lies on the unit circle. */
  lemma {:induction false} VerticesOnUnitCircle(m: Trig, sides: int, rotation: real, smoothness: real)
    requires sides >= 1 && Pythagorean(m)
    ensures var c := BuildContour(m, sides, rotation, smoothness);
      && SqNorm(c.start) == 1.0
      && forall i :: 0 <= i < sides ==> SqNorm(c.segments[i].end) == 1.0
  {
    var c := BuildContour(m, sides, rotation, smoothness);
    forall r: real ensures SqNorm(UnitPoint(m, r)) == 1.0 {
      ToCartesianDistance(m, r, 1.0, Origin);
      assert Sub(UnitPoint(m, r), Origin) == UnitPoint(m, r);
    }
    forall i | 0 <= i < sides ensures SqNorm(c.segments[i].end) == 1.0 {
      ContourSegment(m, sides, rotation, smoothness, i);
    }
  }

  lemma UprightAngle(m: Trig, sides: int, k: int)
    requires sides >= 1
    ensures VertexAngle(m, sides, RotationScaled(m, sides, 0.0), k)
         == 2.0 * m.pi * k as real / sides as real - m.pi / 2.0
  {
    var n, pi := sides as real, m.pi;
    calc {
      VertexAngle(m, sides, RotationScaled(m, sides, 0.0), k);
      (1.0 / n) * (2.0 * pi) * k as real + (0.0 * SectorAngle(m, sides) - 2.0 * pi / 4.0);
      { assert (1.0 / n) * (2.0 * pi) * k as real == 2.0 * pi * k as real / n; }
      2.0 * pi * k as real / n - pi / 2.0;
    }
  }

  /** Unrotated, the end point of segment i lies at angle 2π(i+1)/sides − π/2. */
  lemma {:induction false} UnrotatedEndpoints(m: Trig, sides: int, smoothness: real)
    requires sides >= 1
    ensures var c := BuildContour(m, sides, 0.0, smoothness);
      forall i :: 0 <= i < sides ==>
        c.segments[i].end == UnitPoint(m, 2.0 * m.pi * (i + 1) as real / sides as real - m.pi / 2.0)
  {
    var c := BuildContour(m, sides, 0.0, smoothness);
    forall i | 0 <= i < sides
      ensures c.segments[i].end == UnitPoint(m, 2.0 * m.pi * (i + 1) as real / sides as real - m.pi / 2.0)
    {
      ContourSegment(m, sides, 0.0, smoothness, i);
      UprightAngle(m, sides, i + 1);
      var a := VertexAngle(m, sides, RotationScaled(m, sides, 0.0), i + 1);
      var b := 2.0 * m.pi * (i + 1) as real / sides as real - m.pi / 2.0;
      assert c.segments[i].end == UnitPoint(m, a);
      assert a == b;
      assert UnitPoint(m, a) == UnitPoint(m, b);
    }
  }

  /** Advancing the phase by one sector renumbers the segments by one. */
  lemma SegmentShift(m: Trig, sides: int, smoothness: real, phase: real, i: int)
    requires sides >= 1
    ensures SegmentAt(m, sides, smoothness, phase + SectorAngle(m, sides), i)
         == SegmentAt(m, sides, smoothness, phase, i + 1)
  {
    VertexAngleStep(m, sides, phase, i);
    VertexAngleStep(m, sides, phase, i + 1);
  }

  /** Under periodicity, segment `sides` is segment 0 again. */
  lemma SegmentWrap(m: Trig, sides: int, smoothness: real, phase: real)
    requires sides >= 1 && Periodic(m)
    ensures SegmentAt(m, sides, smoothness, phase, sides) == SegmentAt(m, sides, smoothness, phase, 0)
  {
    var reach := smoothness * MaxSmooth(m, sides);
    var here, next := VertexAngle(m, sides, phase, 0), VertexAngle(m, sides, phase, 1);
    VertexAngleTurn(m, sides, phase, 0);
    VertexAngleTurn(m, sides, phase, 1);
    assert sides + 0 == sides;
    ToCartesianPeriodic(m, here, 1.0, Origin);
    ToCartesianPeriodic(m, next, 1.0, Origin);
    ToCartesianPeriodic(m, here + Tau(m) / 4.0, reach, UnitPoint(m, here));
    ToCartesianPeriodic(m, next - Tau(m) / 4.0, reach, UnitPoint(m, next));
    assert (here + Tau(m)) + Tau(m) / 4.0 == (here + Tau(m) / 4.0) + Tau(m);
    assert (next + Tau(m)) - Tau(m) / 4.0 == (next - Tau(m) / 4.0) + Tau(m);
  }

  /**
   `rotation + 1` turns the polygon by one whole sector: the contour starts
   where the old first segment ended, its segments are the old ones shifted
   by one place and wrapped round, and the bound does not change.
   */
  lemma {:induction false} RotationBySector(m: Trig, fmt: real -> string, rotation: real, sides: int, smoothness: real)
    requires sides >= 1 && Periodic(m)
    ensures var c, c' := BuildContour(m, sides, rotation, smoothness), BuildContour(m, sides, rotation + 1.0, smoothness);
      && c'.start == c.segments[0].end
      && (forall i :: 0 <= i < sides - 1 ==> c'.segments[i] == c.segments[i + 1])
      && c'.segments[sides - 1] == c.segments[0]
    ensures CreatePolygonPath(m, fmt, rotation + 1.0, sides, smoothness).bounds
         == CreatePolygonPath(m, fmt, rotation, sides, smoothness).bounds
  {
    var c, c' := BuildContour(m, sides, rotation, smoothness), BuildContour(m, sides, rotation + 1.0, smoothness);
    var angle, phase := SectorAngle(m, sides), RotationScaled(m, sides, rotation);
    assert RotationScaled(m, sides, rotation + 1.0) == phase + angle;
    ContourSegment(m, sides, rotation, smoothness, 0);
    VertexAngleStep(m, sides, phase, 0);
    assert VertexAngle(m, sides, phase, 0) == phase;
    forall i | 0 <= i < sides
      ensures c'.segments[i] == SegmentAt(m, sides, smoothness, phase, i + 1)
    {
      ContourSegment(m, sides, rotation + 1.0, smoothness, i);
      SegmentShift(m, sides, smoothness, phase, i);
    }
    forall i | 0 <= i < sides - 1
      ensures c'.segments[i] == c.segments[i + 1]
    {
      ContourSegment(m, sides, rotation, smoothness, i + 1);
    }
    SegmentWrap(m, sides, smoothness, phase);
  }
}
