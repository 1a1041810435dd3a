// The Line record: a segment from start to end whose endpoints the setters
// overwrite, with its point/segment and segment/segment queries. Every
// query is the free function of GeometryUtils on the line's endpoints; the
// static overloads take the endpoints explicitly (the one on four points
// is GeometryUtils.ClosestPtSegmentSegment itself).
module Lines {
  import opened Vectors
  import opened GeometryUtils

  class Line {
    var start: Vec3
    var end: Vec3

    constructor (start: Vec3, end: Vec3)
      ensures this.start == start && this.end == end
    {
      this.start := start;
      this.end := end;
    }

    /** The copy (and move) constructor. */
    constructor Copy(line: Line)
      ensures start == line.start && end == line.end
    {
      start := line.start;
      end := line.end;
    }

    /** Copy (and move) assignment. */
    method Assign(line: Line)
      modifies this
      ensures start == old(line.start) && end == old(line.end)
    {
      start, end := line.start, line.end;
    }

    method SetPointStart(p: Vec3)
      modifies this
      ensures start == p && end == old(end)
    {
      start := p;
    }

    method SetPointEnd(p: Vec3)
      modifies this
      ensures end == p && start == old(start)
    {
      end := p;
    }

    /**
     * The closest point of the segment to pt: start, end, or the point at
     * the clamped projection parameter, so always a point of the segment.
     */
    function ClosestPtPointSegment(pt: Vec3): (q: Vec3)
      reads this
      ensures q == GeometryUtils.ClosestPtPointSegment(pt, start, end)
      ensures q == PointAt(start, end, SegmentParam(pt, start, end))
      ensures DistSq(pt, q) <= DistSq(pt, PointAt(start, end, 0.0))
      ensures DistSq(pt, q) <= DistSq(pt, PointAt(start, end, 1.0))
    {
      ClosestPtPointSegmentOnSegment(pt, start, end);
      ClosestPtPointSegmentIsClosest(pt, start, end, 0.0);
      ClosestPtPointSegmentIsClosest(pt, start, end, 1.0);
      GeometryUtils.ClosestPtPointSegment(pt, start, end)
    }

    /** The squared distance from pt to the segment, never negative. */
    function SquaredDistPointSegment(pt: Vec3): (r: real)
      reads this
      ensures r == SqDistPointSegment(pt, start, end)
      ensures r == DistSq(pt, ClosestPtPointSegment(pt)) && r >= 0.0
    {
      SqDistPointSegmentIsDistToClosest(pt, start, end);
      SqDistPointSegment(pt, start, end)
    }

    /**
     * getClosestPtSegmentSegment against another line: c1 on this segment,
     * c2 on line2, at parameters in [0, 1], and the squared distance.
     */
    method ClosestPtSegmentSegment(line2: Line) returns (c1: Vec3, c2: Vec3, dist2: real)
      ensures ClosestPair(c1, c2, dist2) == SegmentsClosest(start, end, line2.start, line2.end)
      ensures var p := SegmentsParams(start, end, line2.start, line2.end);
              c1 == PointAt(start, end, p.s) && c2 == PointAt(line2.start, line2.end, p.t) &&
              dist2 == DistSq(c1, c2) && dist2 >= 0.0
    {
      c1, c2, dist2 := GeometryUtils.ClosestPtSegmentSegment(start, end, line2.start, line2.end);
      SegmentsClosestAt(start, end, line2.start, line2.end, SegmentsParams(start, end, line2.start, line2.end));
    }

    /** The member overload against explicit endpoints. */
    method ClosestPtSegmentSegmentTo(start2: Vec3, end2: Vec3) returns (c1: Vec3, c2: Vec3, dist2: real)
      ensures ClosestPair(c1, c2, dist2) == SegmentsClosest(start, end, start2, end2)
    {
      c1, c2, dist2 := GeometryUtils.ClosestPtSegmentSegment(start, end, start2, end2);
    }

    /** The static overload on two lines. */
    static method ClosestPtSegmentSegmentOf(line1: Line, line2: Line) returns (c1: Vec3, c2: Vec3, dist2: real)
      ensures ClosestPair(c1, c2, dist2) == SegmentsClosest(line1.start, line1.end, line2.start, line2.end)
    {
      c1, c2, dist2 := GeometryUtils.ClosestPtSegmentSegment(line1.start, line1.end, line2.start, line2.end);
    }

    /** The static overload on two points and a line. */
    static method ClosestPtSegmentSegmentFrom(start1: Vec3, end1: Vec3, line2: Line)
      returns (c1: Vec3, c2: Vec3, dist2: real)
      ensures ClosestPair(c1, c2, dist2) == SegmentsClosest(start1, end1, line2.start, line2.end)
    {
      c1, c2, dist2 := GeometryUtils.ClosestPtSegmentSegment(start1, end1, line2.start, line2.end);
    }

    /** The static overload on a line and two points. */
    static method ClosestPtSegmentSegmentOnto(line1: Line, start2: Vec3, end2: Vec3)
      returns (c1: Vec3, c2: Vec3, dist2: real)
      ensures ClosestPair(c1, c2, dist2) == SegmentsClosest(line1.start, line1.end, start2, end2)
    {
      c1, c2, dist2 := GeometryUtils.ClosestPtSegmentSegment(line1.start, line1.end, start2, end2);
    }
  }
}
