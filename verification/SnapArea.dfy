/**
 How far snapping can change the signed area of a ring, and therefore when it
 cannot turn the ring over.
 */
module SnapArea {
  import opened Basics
  import opened Plane
  import opened Polygons
  import opened Snapping

  function Abs(a: real): real {
    if a < 0.0 then -a else a
  }

  // Length of a path in the L1 metric.
  function Perimeter(ring: Ring): real {
    if |ring| < 2 then 0.0
    else
      var a, b := ring[|ring| - 2], ring[|ring| - 1];
      Perimeter(ring[..|ring| - 1]) + Abs(b.x - a.x) + Abs(b.y - a.y)
  }

  function Edges(ring: Ring): real {
    if |ring| < 2 then 0.0 else Edges(ring[..|ring| - 1]) + 1.0
  }

  function AreaBound(ring: Ring, tolerance: real): real {
    Mul(tolerance, Perimeter(ring)) + Mul(Edges(ring), Sq(tolerance)) / 2.0
  }

  function Offset(from: Point, to: Point): Point {
    Point(to.x - from.x, to.y - from.y)
  }

  ghost predicate MovesWithin(ring: Ring, moved: Ring, tolerance: real) {
    |moved| == |ring| && forall i :: 0 <= i < |ring| ==> Within(ring[i], moved[i], tolerance)
  }

  lemma LargerSquare(a: real, bound: real)
    requires 0.0 <= bound < Abs(a)
    ensures Sq(bound) < Sq(a)
  {
    ProductSigns(Abs(a) - bound, Abs(a) + bound);
    assert Mul(Abs(a) - bound, Abs(a) + bound) == Sq(a) - Sq(bound);
  }

  lemma ComponentsWithin(a: real, b: real, tolerance: real)
    requires 0.0 <= tolerance && Sq(a) + Sq(b) <= Sq(tolerance)
    ensures Abs(a) <= tolerance && Abs(b) <= tolerance
  {
    SquareSign(a);
    SquareSign(b);
    if tolerance < Abs(a) {
      LargerSquare(a, tolerance);
    }
    if tolerance < Abs(b) {
      LargerSquare(b, tolerance);
    }
  }

  lemma BoundedProduct(a: real, b: real, bound: real)
    requires Abs(a) <= bound
    ensures Abs(Mul(a, b)) <= Mul(bound, Abs(b))
  {
    ProductSigns(bound - a, Abs(b));
    ProductSigns(bound + a, Abs(b));
    assert Mul(bound - a, Abs(b)) == Mul(bound, Abs(b)) - Mul(a, Abs(b));
    assert Mul(bound + a, Abs(b)) == Mul(bound, Abs(b)) + Mul(a, Abs(b));
    assert b < 0.0 ==> Mul(a, Abs(b)) == -Mul(a, b);
  }

  lemma TwiceProduct(a: real, b: real)
    ensures -(Sq(a) + Sq(b)) <= 2.0 * Mul(a, b) <= Sq(a) + Sq(b)
  {
    SquareSign(a - b);
    SquareSign(a + b);
    assert Sq(a - b) == Sq(a) - 2.0 * Mul(a, b) + Sq(b);
    assert Sq(a + b) == Sq(a) + 2.0 * Mul(a, b) + Sq(b);
  }

  // The cross product of two short vectors is at most the square of their length.
  lemma CrossOfShort(d: Point, e: Point, tolerance: real)
    requires Sq(d.x) + Sq(d.y) <= Sq(tolerance) && Sq(e.x) + Sq(e.y) <= Sq(tolerance)
    ensures Abs(Cross(d, e)) <= Sq(tolerance)
  {
    TwiceProduct(d.x, e.y);
    TwiceProduct(e.x, d.y);
  }

  // One edge: the change telescopes along the path up to a bounded remainder.
  lemma EdgeChange(p: Point, q: Point, p': Point, q': Point, tolerance: real)
    requires Within(p, p', tolerance) && Within(q, q', tolerance)
    ensures var step := Cross(p', q') - Cross(p, q) - (Cross(Offset(p, p'), p) - Cross(Offset(q, q'), q));
            Abs(step) <= 2.0 * Mul(tolerance, Abs(q.x - p.x) + Abs(q.y - p.y)) + Sq(tolerance)
  {
    var d, e := Offset(p, p'), Offset(q, q');
    SquareIsEven(p'.x, p.x);
    SquareIsEven(p'.y, p.y);
    SquareIsEven(q'.x, q.x);
    SquareIsEven(q'.y, q.y);
    assert p' == Point(p.x + d.x, p.y + d.y) && q' == Point(q.x + e.x, q.y + e.y);
    EdgeIdentity(p, q, d, e);
    CrossOfShort(d, e, tolerance);
    ComponentsWithin(d.x, d.y, tolerance);
    ComponentsWithin(e.x, e.y, tolerance);
    RemainderBound(d, q.x - p.x, q.y - p.y, tolerance);
    RemainderBound(e, q.x - p.x, q.y - p.y, tolerance);
  }

  lemma RemainderBound(d: Point, ux: real, uy: real, tolerance: real)
    requires Abs(d.x) <= tolerance && Abs(d.y) <= tolerance
    ensures Abs(Mul(d.x, uy) - Mul(d.y, ux)) <= Mul(tolerance, Abs(ux) + Abs(uy))
  {
    BoundedProduct(d.x, uy, tolerance);
    BoundedProduct(d.y, ux, tolerance);
    MulAdds(tolerance, Abs(ux), Abs(uy));
  }

  lemma SquareIsEven(a: real, b: real)
    ensures Sq(a - b) == Sq(b - a)
  {
  }

  lemma EdgeIdentity(p: Point, q: Point, d: Point, e: Point)
    ensures Cross(Point(p.x + d.x, p.y + d.y), Point(q.x + e.x, q.y + e.y)) - Cross(p, q) - (Cross(d, p) - Cross(e, q))
         == Mul(d.x, q.y - p.y) - Mul(d.y, q.x - p.x) + Mul(e.x, q.y - p.y) - Mul(e.y, q.x - p.x) + Cross(d, e)
  {
  }

  lemma {:induction false} PathChange(ring: Ring, moved: Ring, tolerance: real)
    requires MovesWithin(ring, moved, tolerance) && ring != []
    ensures var n := |ring| - 1;
            var ends := Cross(Offset(ring[0], moved[0]), ring[0]) - Cross(Offset(ring[n], moved[n]), ring[n]);
            Abs(DoubleArea(moved) - DoubleArea(ring) - ends) <= 2.0 * AreaBound(ring, tolerance)
  {
    var n := |ring| - 1;
    if n > 0 {
      PathChange(ring[..n], moved[..n], tolerance);
      EdgeChange(ring[n - 1], ring[n], moved[n - 1], moved[n], tolerance);
      var step := Abs(ring[n].x - ring[n - 1].x) + Abs(ring[n].y - ring[n - 1].y);
      MulAdds(tolerance, Perimeter(ring[..n]), step);
      OneMore(Edges(ring[..n]), Sq(tolerance));
      assert Perimeter(ring) == Perimeter(ring[..n]) + step;
    }
  }

  lemma OneMore(edges: real, square: real)
    ensures Mul(edges + 1.0, square) == Mul(edges, square) + square
  {
  }

  /** Moving each vertex of a closed ring by at most the tolerance, and its two
      ends alike, changes the signed area by at most
      tolerance * perimeter + edges * tolerance^2 / 2. */
  lemma ClosedRingAreaChange(ring: Ring, moved: Ring, tolerance: real)
    requires MovesWithin(ring, moved, tolerance)
    requires ring != [] && ring[0] == ring[|ring| - 1] && moved[0] == moved[|moved| - 1]
    ensures Abs(SignedAreaOf(moved) - SignedAreaOf(ring)) <= AreaBound(ring, tolerance)
  {
    PathChange(ring, moved, tolerance);
  }

  lemma SnappedRingMovesWithin(ring: Ring, vertices: seq<Point>, segments: seq<Segment>, tolerance: real)
    requires 0.0 <= tolerance
    ensures MovesWithin(ring, MovedRing(ring, vertices, segments, tolerance), tolerance)
  {
    forall i | 0 <= i < |ring| ensures Within(ring[i], Moved(ring[i], vertices, segments, tolerance), tolerance) {
      MovedWithinTolerance(ring[i], vertices, segments, tolerance);
    }
  }

  // Each ring encloses more than the bound: outer rings counter-clockwise, holes clockwise.
  ghost predicate ClearOfBound(rings: seq<Ring>, tolerance: real) {
    forall i :: 0 <= i < |rings| ==>
      if i == 0 then SignedAreaOf(rings[i]) > AreaBound(rings[i], tolerance)
      else SignedAreaOf(rings[i]) < -AreaBound(rings[i], tolerance)
  }

  /** Snapping an accepted polygon whose rings are clear of the bound yields
      rings that ParsePolygon accepts again: closed, long enough, same winding. */
  lemma SnappedRingsAreAccepted(rings: seq<Ring>, vertices: seq<Point>, segments: seq<Segment>, tolerance: real)
    requires 0.0 <= tolerance && RingsAccepted(rings) && ClearOfBound(rings, tolerance)
    ensures RingsAccepted(MovedParts(rings, vertices, segments, tolerance))
  {
    forall i | 0 <= i < |rings| ensures RingAccepted(MovedParts(rings, vertices, segments, tolerance)[i], i == 0) {
      assert RingAccepted(rings[i], i == 0);
      MovedRingStaysClosed(rings[i], vertices, segments, tolerance);
      SnappedRingMovesWithin(rings[i], vertices, segments, tolerance);
      ClosedRingAreaChange(rings[i], MovedRing(rings[i], vertices, segments, tolerance), tolerance);
    }
  }

  /** With a library that reads back what it writes, snapping such a candidate
      is not refused once the moved shape itself is valid and has area. */
  lemma SnappingIsNotRefused(engine: Engine, candidate: Polygon, references: seq<Polygon>, tolerance: real)
    requires 0.0 < tolerance && RingsAccepted(candidate.shape.parts) && ClearOfBound(candidate.shape.parts, tolerance)
    requires var rings := AllRings(references);
             var moved := Shape(MovedParts(candidate.shape.parts, Flat(rings), AllSegments(rings), tolerance));
             && engine.valid(moved) && engine.area(moved) > 0.0
             && engine.encode(moved).Some? && engine.decode(engine.encode(moved).value) == Some(moved)
    ensures Snapped(engine, candidate, references, tolerance).Some?
  {
    var rings := AllRings(references);
    SnappedRingsAreAccepted(candidate.shape.parts, Flat(rings), AllSegments(rings), tolerance);
  }
}
