/**
 The text `createPolygonPath` returns. The `path` and `viewBox` strings are
 built by template literals and `join(' ')`; here they are shown to be
 exactly a list of fields separated by single spaces, so that splitting
 them at spaces gives those fields back in order.
 */
module Serialisation {
  import opened Strings
  import opened Helpers
  import Geometry

  /** Number-to-string conversion never produces a space. */
  ghost predicate NoSpaces(fmt: real -> string) {
    forall v :: ' ' !in fmt(v)
  }

  /** The fields of one `C` command: the letter, then `x1 y1 x2 y2 x y`. */
  function SegmentTokens(fmt: real -> string, s: Segment): (t: seq<string>)
    ensures |t| == 7
  {
    ["C", fmt(s.c1.x), fmt(s.c1.y), fmt(s.c2.x), fmt(s.c2.y), fmt(s.end.x), fmt(s.end.y)]
  }

  /** The fields of each segment, segment by segment. */
  function SegmentsTokens(fmt: real -> string, segments: seq<Segment>): (r: seq<seq<string>>)
    ensures |r| == |segments|
  {
    seq(|segments|, i requires 0 <= i < |segments| => SegmentTokens(fmt, segments[i]))
  }

  /** The fields of the path: `M sx sy`, then the fields of each segment in order. */
  function PathTokens(fmt: real -> string, c: Contour): seq<string> {
    ["M", fmt(c.start.x), fmt(c.start.y)] + Concat(SegmentsTokens(fmt, c.segments))
  }

  /** Three fields for the move-to, then seven per segment: `C x1 y1 x2 y2 x y`. */
  lemma PathTokensLayout(fmt: real -> string, c: Contour)
    ensures |PathTokens(fmt, c)| == 3 + 7 * |c.segments|
    ensures PathTokens(fmt, c)[..3] == ["M", fmt(c.start.x), fmt(c.start.y)]
    ensures forall i :: 0 <= i < |c.segments| ==>
      PathTokens(fmt, c)[3 + 7 * i .. 3 + 7 * i + 7] == SegmentTokens(fmt, c.segments[i])
  {
    var head := ["M", fmt(c.start.x), fmt(c.start.y)];
    var xss := SegmentsTokens(fmt, c.segments);
    ConcatLength(xss, 7);
    forall i | 0 <= i < |c.segments|
      ensures PathTokens(fmt, c)[3 + 7 * i .. 3 + 7 * i + 7] == SegmentTokens(fmt, c.segments[i])
    {
      ConcatSlice(xss, 7, i);
      assert (head + Concat(xss))[3 + 7 * i .. 3 + 7 * i + 7] == Concat(xss)[7 * i .. 7 * i + 7];
    }
  }

  /** A `C` command is its seven fields joined by spaces. */
  lemma SegmentCommandIsJoin(fmt: real -> string, s: Segment)
    ensures SegmentCommand(fmt, s) == Join(SegmentTokens(fmt, s), ' ')
  {
    var nums := SegmentTokens(fmt, s)[1..];
    assert SegmentTokens(fmt, s) == ["C"] + nums;
    JoinAppend(["C"], nums, ' ');
  }

  /** The path string is all its fields joined by single spaces. */
  lemma PathStringIsJoin(fmt: real -> string, c: Contour)
    requires |c.segments| >= 1
    ensures PathString(fmt, c) == Join(PathTokens(fmt, c), ' ')
  {
    var n := |c.segments|;
    var head := ["M", fmt(c.start.x), fmt(c.start.y)];
    var xss := SegmentsTokens(fmt, c.segments);
    var commands := SegmentCommands(fmt, c.segments);
    forall i | 0 <= i < n ensures commands[i] == JoinEach(xss, ' ')[i] {
      SegmentCommandIsJoin(fmt, c.segments[i]);
    }
    assert commands == JoinEach(xss, ' ');
    JoinConcat(xss, ' ');
    assert |Concat(xss)| >= |xss[0]|;
    JoinAppend(head, Concat(xss), ' ');
    assert head[1..] == [fmt(c.start.x), fmt(c.start.y)];
    assert head[1..][1..] == [fmt(c.start.y)];
    var front := Join(head, ' ');
    assert front == "M " + fmt(c.start.x) + " " + fmt(c.start.y);
    var rest := Join(commands, ' ');
    calc {
      Join(PathTokens(fmt, c), ' ');
      front + " " + Join(Concat(xss), ' ');
      front + " " + rest;
      "M " + fmt(c.start.x) + " " + fmt(c.start.y) + " " + rest;
      PathString(fmt, c);
    }
  }

  /** The path's fields never contain a space. */
  lemma PathTokensFree(fmt: real -> string, c: Contour)
    requires NoSpaces(fmt)
    ensures Free(PathTokens(fmt, c), ' ')
  {
    var head := ["M", fmt(c.start.x), fmt(c.start.y)];
    var xss := SegmentsTokens(fmt, c.segments);
    ConcatFree(xss, ' ');
    assert forall k :: 0 <= k < |head + Concat(xss)| ==>
      (head + Concat(xss))[k] == if k < 3 then head[k] else Concat(xss)[k - 3];
  }

  /** Splitting `path` at spaces gives `M sx sy` and then `C x1 y1 x2 y2 x y` for each side. */
  lemma {:induction false} PathSplits(m: Trig, fmt: real -> string, rotation: real, sides: int, smoothness: real)
    requires sides >= 1 && NoSpaces(fmt)
    ensures Split(CreatePolygonPath(m, fmt, rotation, sides, smoothness).path, ' ')
         == PathTokens(fmt, BuildContour(m, sides, rotation, smoothness))
  {
    var c := BuildContour(m, sides, rotation, smoothness);
    PathStringIsJoin(fmt, c);
    PathTokensFree(fmt, c);
    PathTokensLayout(fmt, c);
    SplitJoin(PathTokens(fmt, c), ' ');
  }

  /** The viewBox string is its four fields joined by single spaces. */
  lemma ViewBoxIsJoin(fmt: real -> string, x: real, y: real, width: real, height: real)
    ensures ViewBox(fmt, x, y, width, height) == Join([fmt(x), fmt(y), fmt(width), fmt(height)], ' ')
  {
    var fields := [fmt(x), fmt(y), fmt(width), fmt(height)];
    assert fields[1..] == [fmt(y), fmt(width), fmt(height)];
    assert fields[1..][1..] == [fmt(width), fmt(height)];
    assert fields[1..][1..][1..] == [fmt(height)];
    assert Join([fmt(width), fmt(height)], ' ') == fmt(width) + " " + fmt(height);
    assert Join(fields[1..], ' ') == fmt(y) + " " + (fmt(width) + " " + fmt(height));
  }

  /** Splitting `viewBox` at spaces gives `x`, `y`, `width` and `height`, in that order. */
  lemma {:induction false} ViewBoxSplits(m: Trig, fmt: real -> string, rotation: real, sides: int, smoothness: real)
    requires sides >= 1 && NoSpaces(fmt)
    ensures var p := CreatePolygonPath(m, fmt, rotation, sides, smoothness);
      Split(p.viewBox, ' ') == [fmt(p.x), fmt(p.y), fmt(p.width), fmt(p.height)]
      && Split(p.viewBox, ' ') == [fmt(-p.bounds), fmt(-p.bounds), fmt(2.0 * p.bounds), fmt(2.0 * p.bounds)]
  {
    var p := CreatePolygonPath(m, fmt, rotation, sides, smoothness);
    var fields := [fmt(p.x), fmt(p.y), fmt(p.width), fmt(p.height)];
    ViewBoxIsJoin(fmt, p.x, p.y, p.width, p.height);
    assert p.viewBox == ViewBox(fmt, p.x, p.y, p.width, p.height);
    assert Free(fields, ' ');
    SplitJoin(fields, ' ');
  }

  /** A sharp polygon gets the viewBox `-1 -1 2 2`, whatever its side count and rotation. */
  lemma {:induction false} SharpViewBox(m: Trig, fmt: real -> string, rotation: real, sides: int)
    requires sides >= 1 && NoSpaces(fmt) && Bounded(m)
    ensures Split(CreatePolygonPath(m, fmt, rotation, sides, 0.0).viewBox, ' ')
         == [fmt(-1.0), fmt(-1.0), fmt(2.0), fmt(2.0)]
  {
    Geometry.SharpBoundsIsOne(m, sides);
    ViewBoxSplits(m, fmt, rotation, sides, 0.0);
  }
}
