/**
 Exact planar arithmetic: squared distances, clamped projection onto a segment
 and the shoelace area of a ring.
 */
module Plane {

  datatype Point = Point(x: real, y: real)

  type Ring = seq<Point>

  datatype Segment = Segment(start: Point, end: Point)

  function Mul(a: real, b: real): real { a * b }

  function Sq(a: real): real { Mul(a, a) }

  function DistSq(a: Point, b: Point): real {
    Sq(a.x - b.x) + Sq(a.y - b.y)
  }

  function Dot(ux: real, uy: real, vx: real, vy: real): real {
    Mul(ux, vx) + Mul(uy, vy)
  }

  function Clamp01(t: real): real {
    if t < 0.0 then 0.0 else if t > 1.0 then 1.0 else t
  }

  // The point a fraction `t` of the way along a segment.
  function Along(s: Segment, t: real): Point {
    Point(s.start.x + t * (s.end.x - s.start.x), s.start.y + t * (s.end.y - s.start.y))
  }

  function LengthSq(s: Segment): real {
    Sq(s.end.x - s.start.x) + Sq(s.end.y - s.start.y)
  }

  // How far `p` is ahead of the start, measured along the segment and scaled by its length.
  function Advance(p: Point, s: Segment): real {
    Dot(p.x - s.start.x, p.y - s.start.y, s.end.x - s.start.x, s.end.y - s.start.y)
  }

  // The clamped ratio of projectOntoSegment; 0 for a degenerate segment, which projects to its start.
  function Ratio(p: Point, s: Segment): real {
    if LengthSq(s) == 0.0 then 0.0
    else Clamp01(Advance(p, s) / LengthSq(s))
  }

  function Project(p: Point, s: Segment): Point {
    if LengthSq(s) == 0.0 then s.start else Along(s, Ratio(p, s))
  }

  ghost predicate OnSegment(p: Point, s: Segment) {
    exists t: real :: 0.0 <= t <= 1.0 && p == Along(s, t)
  }

  lemma ProductSigns(a: real, b: real)
    ensures 0.0 < a && 0.0 < b ==> 0.0 < Mul(a, b)
    ensures 0.0 <= a && 0.0 <= b ==> 0.0 <= Mul(a, b)
  {
  }

  lemma SquareSign(a: real)
    ensures 0.0 <= Sq(a)
    ensures a != 0.0 ==> 0.0 < Sq(a)
  {
    ProductSigns(a, a);
    ProductSigns(-a, -a);
    assert Mul(-a, -a) == Mul(a, a);
  }

  lemma DistSqZero(a: Point, b: Point)
    ensures 0.0 <= DistSq(a, b)
    ensures DistSq(a, b) == 0.0 <==> a == b
  {
    SquareSign(a.x - b.x);
    SquareSign(a.y - b.y);
  }

  // Squared distance to the point at `t`, as a polynomial in `t`.
  lemma DistSqAlong(p: Point, s: Segment, t: real)
    ensures DistSq(p, Along(s, t))
         == DistSq(p, s.start) - 2.0 * Mul(t, Advance(p, s)) + Mul(Sq(t), LengthSq(s))
  {
    var wx, wy, dx, dy := p.x - s.start.x, p.y - s.start.y, s.end.x - s.start.x, s.end.y - s.start.y;
    var q := Along(s, t);
    assert p.x - q.x == wx - t * dx && p.y - q.y == wy - t * dy;
    SquareOfDifference(wx, t, dx);
    SquareOfDifference(wy, t, dy);
    MulAdds(t, Mul(wx, dx), Mul(wy, dy));
    MulAdds(Sq(t), Sq(dx), Sq(dy));
  }

  lemma SquareOfDifference(w: real, t: real, d: real)
    ensures Sq(w - t * d) == Sq(w) - 2.0 * Mul(t, Mul(w, d)) + Mul(Sq(t), Sq(d))
  {
  }

  lemma MulAdds(a: real, b: real, c: real)
    ensures Mul(a, b + c) == Mul(a, b) + Mul(a, c)
  {
  }

  // With L > 0 the clamped minimiser of L * t^2 - 2 * c * t beats every t in [0, 1].
  lemma ClampedMinimum(c: real, L: real, t: real)
    requires 0.0 < L && 0.0 <= t <= 1.0
    ensures var r := Clamp01(c / L);
            Mul(Sq(r), L) - 2.0 * Mul(r, c) <= Mul(Sq(t), L) - 2.0 * Mul(t, c)
  {
    var q := c / L;
    var r := Clamp01(q);
    assert c == q * L;
    var gap := Mul(t - r, t + r - 2.0 * q);
    assert 0.0 <= gap by {
      if q < 0.0 {
        ProductSigns(t, t - 2.0 * q);
      } else if q > 1.0 {
        ProductSigns(1.0 - t, 2.0 * q - 1.0 - t);
        assert gap == Mul(1.0 - t, 2.0 * q - 1.0 - t);
      } else {
        SquareSign(t - q);
      }
    }
    GapIdentity(t, r, q, L);
    ProductSigns(gap, L);
  }

  lemma GapIdentity(t: real, r: real, q: real, L: real)
    ensures (t * t * L - 2.0 * t * (q * L)) - (r * r * L - 2.0 * r * (q * L)) == Mul(Mul(t - r, t + r - 2.0 * q), L)
  {
  }

  lemma LengthSqSign(s: Segment)
    ensures 0.0 <= LengthSq(s)
    ensures LengthSq(s) == 0.0 <==> s.start == s.end
  {
    SquareSign(s.end.x - s.start.x);
    SquareSign(s.end.y - s.start.y);
  }

  // The projection is on the segment and at least as near as any of its points.
  lemma ProjectionIsNearest(p: Point, s: Segment, q: Point)
    requires OnSegment(q, s)
    ensures OnSegment(Project(p, s), s)
    ensures DistSq(p, Project(p, s)) <= DistSq(p, q)
  {
    var t :| 0.0 <= t <= 1.0 && q == Along(s, t);
    LengthSqSign(s);
    assert Along(s, 0.0) == s.start;
    if LengthSq(s) != 0.0 {
      ClampedMinimum(Advance(p, s), LengthSq(s), t);
      DistSqAlong(p, s, t);
      DistSqAlong(p, s, Ratio(p, s));
    }
  }

  lemma ProjectionOnSegment(p: Point, s: Segment)
    ensures OnSegment(Project(p, s), s)
  {
    assert Along(s, 0.0) == s.start;
    assert OnSegment(s.start, s);
    ProjectionIsNearest(p, s, s.start);
  }

  // A projection away from both ends comes from a ratio strictly between them.
  lemma InteriorProjection(p: Point, s: Segment)
    requires Project(p, s) != s.start && Project(p, s) != s.end
    ensures LengthSq(s) != 0.0 && 0.0 < Ratio(p, s) < 1.0 && Project(p, s) == Along(s, Ratio(p, s))
  {
    assert Along(s, 0.0) == s.start && Along(s, 1.0) == s.end;
  }

  // ---- Shoelace area ----

  function Cross(a: Point, b: Point): real {
    Mul(a.x, b.y) - Mul(b.x, a.y)
  }

  function DoubleArea(ring: Ring): real {
    if |ring| < 2 then 0.0 else DoubleArea(ring[..|ring| - 1]) + Cross(ring[|ring| - 2], ring[|ring| - 1])
  }

  function SignedAreaOf(ring: Ring): real {
    DoubleArea(ring) / 2.0
  }

  method SignedArea(ring: Ring) returns (area: real)
    ensures area == SignedAreaOf(ring)
  {
    area := 0.0;
    var i := 0;
    while i + 1 < |ring|
      invariant 0 <= i && (ring == [] || i < |ring|)
      invariant area == DoubleArea(ring[..if ring == [] then 0 else i + 1])
    {
      assert ring[..i + 2][..i + 1] == ring[..i + 1];
      area := area + (ring[i].x * ring[i + 1].y - ring[i + 1].x * ring[i].y);
      i := i + 1;
    }
    assert ring == [] || ring[..i + 1] == ring;
    area := area / 2.0;
  }

  lemma AreaSnoc(front: Ring, p: Point)
    requires front != []
    ensures DoubleArea(front + [p]) == DoubleArea(front) + Cross(front[|front| - 1], p)
  {
    assert (front + [p])[..|front|] == front;
  }

  lemma AreaOfFour(a: Point, b: Point, c: Point, d: Point)
    ensures DoubleArea([a, b, c, d, a]) == Cross(a, b) + Cross(b, c) + Cross(c, d) + Cross(d, a)
  {
    assert DoubleArea([a]) == 0.0;
    hide DoubleArea, Cross;
    assert [a] + [b] == [a, b] && [a, b] + [c] == [a, b, c] && [a, b, c] + [d] == [a, b, c, d] && [a, b, c, d] + [a] == [a, b, c, d, a];
    AreaSnoc([a], b);
    AreaSnoc([a, b], c);
    AreaSnoc([a, b, c], d);
    AreaSnoc([a, b, c, d], a);
  }

  lemma {:induction false} AreaCons(p: Point, rest: Ring)
    requires rest != []
    ensures DoubleArea([p] + rest) == Cross(p, rest[0]) + DoubleArea(rest)
  {
    if |rest| > 1 {
      var front, last := rest[..|rest| - 1], rest[|rest| - 1];
      AreaCons(p, front);
      AreaSnoc([p] + front, last);
      assert [p] + rest == ([p] + front) + [last];
      AreaSnoc(front, last);
      assert rest == front + [last];
    } else {
      AreaSnoc([p], rest[0]);
      assert [p] + rest == [p] + [rest[0]];
    }
  }

  function Backwards(ring: Ring): Ring {
    if ring == [] then [] else Backwards(ring[1..]) + [ring[0]]
  }

  lemma {:induction false} BackwardsEnds(ring: Ring)
    requires ring != []
    ensures |Backwards(ring)| == |ring| && Backwards(ring)[|ring| - 1] == ring[0]
  {
    if |ring| > 1 {
      BackwardsEnds(ring[1..]);
    }
  }

  lemma CrossTurns(a: Point, b: Point)
    ensures Cross(b, a) == -Cross(a, b)
  {
  }

  // Walked the other way round, a ring has the opposite area.
  lemma {:induction false} BackwardsNegatesArea(ring: Ring)
    ensures SignedAreaOf(Backwards(ring)) == -SignedAreaOf(ring)
  {
    if |ring| > 1 {
      var p, rest := ring[0], ring[1..];
      BackwardsNegatesArea(rest);
      BackwardsEnds(rest);
      assert ring == [p] + rest;
      AreaCons(p, rest);
      AreaSnoc(Backwards(rest), p);
      CrossTurns(p, rest[0]);
    } else {
      assert DoubleArea(ring) == 0.0 && DoubleArea(Backwards(ring)) == 0.0;
    }
  }

  // Counter-clockwise from its lower left corner, a rectangle has the area width times height.
  lemma RectangleArea(x: real, y: real, width: real, height: real)
    ensures SignedAreaOf([Point(x, y), Point(x + width, y), Point(x + width, y + height), Point(x, y + height), Point(x, y)]) == width * height
  {
    var a, b, c, d := Point(x, y), Point(x + width, y), Point(x + width, y + height), Point(x, y + height);
    AreaOfFour(a, b, c, d);
    hide DoubleArea;
    CornerProducts(x, y, width, height);
  }

  lemma CornerProducts(x: real, y: real, w: real, h: real)
    ensures Cross(Point(x, y), Point(x + w, y)) + Cross(Point(x + w, y), Point(x + w, y + h))
          + Cross(Point(x + w, y + h), Point(x, y + h)) + Cross(Point(x, y + h), Point(x, y)) == 2.0 * (w * h)
  {
  }
}
