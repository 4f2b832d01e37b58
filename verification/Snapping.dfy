/**
 Snapping a candidate boundary to reference boundaries: the nearest reference
 vertex within tolerance, failing that the nearest point of a reference edge.
 */
module Snapping {
  import opened Basics
  import opened Plane
  import opened Polygons

  datatype SnapKind = VertexSnap | EdgeSnap

  // One moved coordinate. The distance is kept squared.
  datatype SnapChange = SnapChange(before: Point, after: Point, kind: SnapKind, distanceSq: real)

  datatype SnapResult = SnapResult(suggested: string, polygon: Polygon, changes: seq<SnapChange>)

  // ---- Choosing the target of one coordinate ----

  // Distances are compared by their squares; a negative tolerance reaches nothing.
  predicate Within(a: Point, b: Point, tolerance: real) {
    0.0 <= tolerance && DistSq(a, b) <= Sq(tolerance)
  }

  // Index of the earliest nearest candidate within tolerance.
  function Nearest(source: Point, candidates: seq<Point>, tolerance: real): (best: Option<nat>)
    ensures best.Some? ==> best.value < |candidates|
  {
    if candidates == [] then None
    else
      var n := |candidates| - 1;
      var best := Nearest(source, candidates[..n], tolerance);
      var d := DistSq(source, candidates[n]);
      if Within(source, candidates[n], tolerance) && (best.None? || d < DistSq(source, candidates[best.value])) then Some(n) else best
  }

  function Projections(source: Point, segments: seq<Segment>): seq<Point> {
    seq(|segments|, i requires 0 <= i < |segments| => Project(source, segments[i]))
  }

  // The chosen target, before asking whether it differs from the source.
  function Target(source: Point, vertices: seq<Point>, segments: seq<Segment>, tolerance: real): Option<(Point, SnapKind)> {
    match Nearest(source, vertices, tolerance)
    case Some(i) => Some((vertices[i], VertexSnap))
    case None =>
      var feet := Projections(source, segments);
      match Nearest(source, feet, tolerance)
      case Some(i) => Some((feet[i], EdgeSnap))
      case None => None
  }

  function SnapOf(source: Point, vertices: seq<Point>, segments: seq<Segment>, tolerance: real): Option<SnapChange> {
    match Target(source, vertices, segments, tolerance)
    case None => None
    case Some((to, kind)) =>
      if to == source then None else Some(SnapChange(source, to, kind, DistSq(source, to)))
  }

  method NearestSnapTarget(source: Point, vertices: seq<Point>, segments: seq<Segment>, tolerance: real)
    returns (change: Option<SnapChange>)
    ensures change == SnapOf(source, vertices, segments, tolerance)
  {
    var best: Option<(Point, SnapKind)> := None;
    for i := 0 to |vertices|
      invariant best == match Nearest(source, vertices[..i], tolerance) case None => None case Some(k) => Some((vertices[k], VertexSnap))
    {
      assert vertices[..i + 1][..i] == vertices[..i];
      var distance := DistSq(source, vertices[i]);
      if Within(source, vertices[i], tolerance) && (best.None? || distance < DistSq(source, best.value.0)) {
        best := Some((vertices[i], VertexSnap));
      }
    }
    assert vertices[..|vertices|] == vertices;
    if best.None? {
      ghost var feet := Projections(source, segments);
      for i := 0 to |segments|
        invariant best == match Nearest(source, feet[..i], tolerance) case None => None case Some(k) => Some((feet[k], EdgeSnap))
      {
        assert feet[..i + 1][..i] == feet[..i];
        var projection := Project(source, segments[i]);
        var distance := DistSq(source, projection);
        if Within(source, projection, tolerance) && (best.None? || distance < DistSq(source, best.value.0)) {
          best := Some((projection, EdgeSnap));
        }
      }
      assert feet[..|segments|] == feet;
    }
    if best.None? || best.value.0 == source {
      return None;
    }
    return Some(SnapChange(source, best.value.0, best.value.1, DistSq(source, best.value.0)));
  }

  // ---- What the choice means ----

  lemma {:induction false} NearestIsEarliestMinimum(source: Point, candidates: seq<Point>, tolerance: real)
    ensures var best := Nearest(source, candidates, tolerance);
      if best.None? then forall i :: 0 <= i < |candidates| ==> !Within(source, candidates[i], tolerance)
      else
        && Within(source, candidates[best.value], tolerance)
        && (forall i :: 0 <= i < |candidates| ==> DistSq(source, candidates[best.value]) <= DistSq(source, candidates[i]))
        && (forall i :: 0 <= i < best.value ==> DistSq(source, candidates[best.value]) < DistSq(source, candidates[i]))
  {
    if candidates != [] {
      var n := |candidates| - 1;
      NearestIsEarliestMinimum(source, candidates[..n], tolerance);
      assert forall i :: 0 <= i < n ==> candidates[..n][i] == candidates[i];
    }
  }

  // Every end of a reference segment is also listed as a vertex.
  ghost predicate EndsListed(vertices: seq<Point>, segments: seq<Segment>) {
    forall i :: 0 <= i < |segments| ==> segments[i].start in vertices && segments[i].end in vertices
  }

  ghost predicate OnSome(q: Point, segments: seq<Segment>) {
    exists i :: 0 <= i < |segments| && OnSegment(q, segments[i])
  }

  lemma NoVertexWithin(source: Point, vertices: seq<Point>, tolerance: real, v: Point)
    requires Nearest(source, vertices, tolerance).None? && v in vertices
    ensures !Within(source, v, tolerance)
  {
    NearestIsEarliestMinimum(source, vertices, tolerance);
    var i :| 0 <= i < |vertices| && vertices[i] == v;
  }

  lemma NearestFoot(source: Point, segments: seq<Segment>, tolerance: real, q: Point)
    requires OnSome(q, segments)
    ensures var feet := Projections(source, segments);
      match Nearest(source, feet, tolerance)
      case None => !Within(source, q, tolerance)
      case Some(i) => OnSome(feet[i], segments) && DistSq(source, feet[i]) <= DistSq(source, q)
  {
    var feet := Projections(source, segments);
    NearestIsEarliestMinimum(source, feet, tolerance);
    var i :| 0 <= i < |segments| && OnSegment(q, segments[i]);
    ProjectionIsNearest(source, segments[i], q);
    assert feet[i] == Project(source, segments[i]);
    var best := Nearest(source, feet, tolerance);
    if best.Some? {
      ProjectionOnSegment(source, segments[best.value]);
    }
  }

  ghost predicate EarliestNearest(source: Point, vertices: seq<Point>, k: nat)
    requires k < |vertices|
  {
    && (forall i :: 0 <= i < |vertices| ==> DistSq(source, vertices[k]) <= DistSq(source, vertices[i]))
    && (forall i :: 0 <= i < k ==> DistSq(source, vertices[k]) < DistSq(source, vertices[i]))
  }

  // A vertex snap goes to the earliest-listed nearest vertex within tolerance.
  lemma VertexTargetIsRight(source: Point, vertices: seq<Point>, segments: seq<Segment>, tolerance: real, change: SnapChange)
    requires SnapOf(source, vertices, segments, tolerance) == Some(change) && change.kind == VertexSnap
    ensures exists k :: 0 <= k < |vertices| && vertices[k] == change.after && EarliestNearest(source, vertices, k)
    ensures change.before == source && 0.0 < change.distanceSq == DistSq(source, change.after) && Within(source, change.after, tolerance)
  {
    NearestIsEarliestMinimum(source, vertices, tolerance);
    assert EarliestNearest(source, vertices, Nearest(source, vertices, tolerance).value);
    DistSqZero(source, change.after);
  }

  /** An edge snap beats every point of every reference segment, happens only
      with no vertex within tolerance, and lands strictly inside its segment. */
  lemma EdgeTargetIsRight(source: Point, vertices: seq<Point>, segments: seq<Segment>, tolerance: real, change: SnapChange)
    requires EndsListed(vertices, segments)
    requires SnapOf(source, vertices, segments, tolerance) == Some(change) && change.kind == EdgeSnap
    ensures forall q :: OnSome(q, segments) ==> DistSq(source, change.after) <= DistSq(source, q)
    ensures forall v :: v in vertices ==> !Within(source, v, tolerance)
    ensures exists i, t: real :: 0 <= i < |segments| && 0.0 < t < 1.0 && change.after == Along(segments[i], t)
    ensures change.before == source && 0.0 < change.distanceSq == DistSq(source, change.after) && Within(source, change.after, tolerance)
  {
    forall v | v in vertices ensures !Within(source, v, tolerance) {
      NoVertexWithin(source, vertices, tolerance, v);
    }
    forall q | OnSome(q, segments) ensures DistSq(source, change.after) <= DistSq(source, q) {
      NearestFoot(source, segments, tolerance, q);
    }
    var feet := Projections(source, segments);
    NearestIsEarliestMinimum(source, feet, tolerance);
    var k := Nearest(source, feet, tolerance).value;
    InteriorProjection(source, segments[k]);
    assert change.after == Along(segments[k], Ratio(source, segments[k]));
    DistSqZero(source, change.after);
  }

  // An unmoved coordinate is already on its target, or out of reach of every reference point.
  lemma UnmovedIsRight(source: Point, vertices: seq<Point>, segments: seq<Segment>, tolerance: real)
    requires SnapOf(source, vertices, segments, tolerance).None?
    ensures source in vertices || OnSome(source, segments)
      || ((forall v :: v in vertices ==> !Within(source, v, tolerance))
          && (forall q :: OnSome(q, segments) ==> !Within(source, q, tolerance)))
  {
    match Target(source, vertices, segments, tolerance)
    case None =>
      forall v | v in vertices ensures !Within(source, v, tolerance) {
        NoVertexWithin(source, vertices, tolerance, v);
      }
      forall q | OnSome(q, segments) ensures !Within(source, q, tolerance) {
        NearestFoot(source, segments, tolerance, q);
      }
    case Some((to, kind)) =>
      if kind == EdgeSnap {
        var feet := Projections(source, segments);
        var k := Nearest(source, feet, tolerance).value;
        ProjectionOnSegment(source, segments[k]);
      }
  }

  // Where a coordinate ends up.
  function Moved(source: Point, vertices: seq<Point>, segments: seq<Segment>, tolerance: real): Point {
    match SnapOf(source, vertices, segments, tolerance)
    case None => source
    case Some(change) => change.after
  }

  lemma MovedWithinTolerance(source: Point, vertices: seq<Point>, segments: seq<Segment>, tolerance: real)
    ensures DistSq(source, Moved(source, vertices, segments, tolerance)) <= Sq(tolerance)
  {
    DistSqZero(source, source);
    SquareSign(tolerance);
    NearestIsEarliestMinimum(source, vertices, tolerance);
    NearestIsEarliestMinimum(source, Projections(source, segments), tolerance);
  }

  lemma VertexSnapIsFinal(source: Point, vertices: seq<Point>, segments: seq<Segment>, tolerance: real)
    requires SnapOf(source, vertices, segments, tolerance).Some?
    requires SnapOf(source, vertices, segments, tolerance).value.kind == VertexSnap
    ensures var once := Moved(source, vertices, segments, tolerance);
            Moved(once, vertices, segments, tolerance) == once
  {
    var once := Moved(source, vertices, segments, tolerance);
    NearestIsEarliestMinimum(source, vertices, tolerance);
    NearestIsEarliestMinimum(once, vertices, tolerance);
    var i := Nearest(source, vertices, tolerance).value;
    SquareSign(tolerance);
    DistSqZero(once, once);
    assert vertices[i] == once && Within(once, vertices[i], tolerance);
    DistSqZero(once, vertices[Nearest(once, vertices, tolerance).value]);
  }

  lemma EdgeSnapMovesOn(source: Point, vertices: seq<Point>, segments: seq<Segment>, tolerance: real, v: Point)
    requires SnapOf(source, vertices, segments, tolerance).Some?
    requires SnapOf(source, vertices, segments, tolerance).value.kind == EdgeSnap
    requires v in vertices && Within(Moved(source, vertices, segments, tolerance), v, tolerance)
    ensures var once := Moved(source, vertices, segments, tolerance);
            Moved(once, vertices, segments, tolerance) != once
  {
    var once := Moved(source, vertices, segments, tolerance);
    EdgeFoot(source, vertices, segments, tolerance);
    NearestIsEarliestMinimum(once, vertices, tolerance);
    var i :| 0 <= i < |vertices| && vertices[i] == v;
    assert Within(once, vertices[i], tolerance);
    NoVertexWithin(source, vertices, tolerance, vertices[Nearest(once, vertices, tolerance).value]);
  }

  lemma EdgeSnapIsFinal(source: Point, vertices: seq<Point>, segments: seq<Segment>, tolerance: real)
    requires SnapOf(source, vertices, segments, tolerance).Some?
    requires SnapOf(source, vertices, segments, tolerance).value.kind == EdgeSnap
    requires forall v :: v in vertices ==> !Within(Moved(source, vertices, segments, tolerance), v, tolerance)
    ensures var once := Moved(source, vertices, segments, tolerance);
            Moved(once, vertices, segments, tolerance) == once
  {
    var once := Moved(source, vertices, segments, tolerance);
    EdgeFoot(source, vertices, segments, tolerance);
    NoneWithin(once, vertices, tolerance);
    OnSegmentIsFinal(once, segments, tolerance);
    assert Target(once, vertices, segments, tolerance).value.0 == once;
  }

  lemma NoneWithin(p: Point, vertices: seq<Point>, tolerance: real)
    requires forall v :: v in vertices ==> !Within(p, v, tolerance)
    ensures Nearest(p, vertices, tolerance).None?
  {
    NearestIsEarliestMinimum(p, vertices, tolerance);
    var best := Nearest(p, vertices, tolerance);
    if best.Some? {
      assert vertices[best.value] in vertices;
    }
  }

  lemma OnSegmentIsFinal(p: Point, segments: seq<Segment>, tolerance: real)
    requires OnSome(p, segments) && 0.0 <= tolerance
    ensures var feet := Projections(p, segments);
            Nearest(p, feet, tolerance).Some? && feet[Nearest(p, feet, tolerance).value] == p
  {
    NearestFoot(p, segments, tolerance, p);
    DistSqZero(p, p);
    SquareSign(tolerance);
    var feet := Projections(p, segments);
    DistSqZero(p, feet[Nearest(p, feet, tolerance).value]);
  }

  /** Snapping again leaves a snapped coordinate alone, except an edge snap that
      landed within tolerance of a vertex: exactly then it moves on to a vertex. */
  lemma SnapAgain(source: Point, vertices: seq<Point>, segments: seq<Segment>, tolerance: real)
    ensures var once := Moved(source, vertices, segments, tolerance);
      Moved(once, vertices, segments, tolerance) == once
      <==> !(SnapOf(source, vertices, segments, tolerance).Some?
             && SnapOf(source, vertices, segments, tolerance).value.kind == EdgeSnap
             && exists v :: v in vertices && Within(once, v, tolerance))
  {
    var change := SnapOf(source, vertices, segments, tolerance);
    if change.Some? && change.value.kind == VertexSnap {
      VertexSnapIsFinal(source, vertices, segments, tolerance);
    } else if change.Some? {
      if v :| v in vertices && Within(change.value.after, v, tolerance) {
        EdgeSnapMovesOn(source, vertices, segments, tolerance, v);
      } else {
        EdgeSnapIsFinal(source, vertices, segments, tolerance);
      }
    }
  }

  lemma EdgeFoot(source: Point, vertices: seq<Point>, segments: seq<Segment>, tolerance: real)
    requires SnapOf(source, vertices, segments, tolerance).Some?
    requires SnapOf(source, vertices, segments, tolerance).value.kind == EdgeSnap
    ensures Nearest(source, vertices, tolerance).None?
    ensures var once := Moved(source, vertices, segments, tolerance);
            OnSome(once, segments) && Within(source, once, tolerance)
  {
    var feet := Projections(source, segments);
    NearestIsEarliestMinimum(source, feet, tolerance);
    var k := Nearest(source, feet, tolerance).value;
    ProjectionOnSegment(source, segments[k]);
    assert feet[k] == Project(source, segments[k]);
  }

  // ---- Whole polygons ----

  function Flat<T>(parts: seq<seq<T>>): seq<T> {
    if parts == [] then [] else Flat(parts[..|parts| - 1]) + parts[|parts| - 1]
  }

  function AllRings(references: seq<Polygon>): seq<Ring> {
    if references == [] then [] else AllRings(references[..|references| - 1]) + references[|references| - 1].rings
  }

  function RingSegments(ring: Ring): seq<Segment> {
    if |ring| < 2 then [] else RingSegments(ring[..|ring| - 1]) + [Segment(ring[|ring| - 2], ring[|ring| - 1])]
  }

  function AllSegments(rings: seq<Ring>): seq<Segment> {
    if rings == [] then [] else AllSegments(rings[..|rings| - 1]) + RingSegments(rings[|rings| - 1])
  }

  lemma RingsSnoc(rings: seq<Ring>, ring: Ring)
    ensures Flat(rings + [ring]) == Flat(rings) + ring
    ensures AllSegments(rings + [ring]) == AllSegments(rings) + RingSegments(ring)
  {
    assert (rings + [ring])[..|rings|] == rings;
  }

  // The reference vertices and segments, in the order SnapToReferences lists them.
  method CollectReferences(references: seq<Polygon>) returns (vertices: seq<Point>, segments: seq<Segment>)
    ensures vertices == Flat(AllRings(references)) && segments == AllSegments(AllRings(references))
  {
    hide Flat, AllSegments, RingSegments;
    NothingListed();
    vertices, segments := [], [];
    ghost var rings: seq<Ring> := [];
    for r := 0 to |references|
      invariant rings == AllRings(references[..r])
      invariant vertices == Flat(rings) && segments == AllSegments(rings)
    {
      assert references[..r + 1][..r] == references[..r];
      var own := references[r].rings;
      ghost var before := rings;
      for k := 0 to |own|
        invariant rings == before + own[..k]
        invariant vertices == Flat(rings) && segments == AllSegments(rings)
      {
        RingsSnoc(rings, own[k]);
        rings := rings + [own[k]];
        vertices, segments := CollectRing(own[k], vertices, segments);
      }
      assert own[..|own|] == own;
    }
    assert references[..|references|] == references;
  }

  lemma NothingListed()
    ensures Flat<Point>([]) == [] && AllSegments([]) == []
  {
  }

  // Appends the points of a ring, and the segment that ends at each but the first.
  method CollectRing(ring: Ring, listed: seq<Point>, drawn: seq<Segment>) returns (vertices: seq<Point>, segments: seq<Segment>)
    ensures vertices == listed + ring && segments == drawn + RingSegments(ring)
  {
    vertices, segments := listed, drawn;
    for index := 0 to |ring|
      invariant vertices == listed + ring[..index] && segments == drawn + RingSegments(ring[..index])
    {
      assert ring[..index + 1][..index] == ring[..index];
      vertices := vertices + [ring[index]];
      if index > 0 {
        segments := segments + [Segment(ring[index - 1], ring[index])];
      }
    }
    assert ring[..|ring|] == ring;
  }

  function MovedRing(ring: Ring, vertices: seq<Point>, segments: seq<Segment>, tolerance: real): Ring {
    seq(|ring|, i requires 0 <= i < |ring| => Moved(ring[i], vertices, segments, tolerance))
  }

  function MovedParts(parts: seq<Ring>, vertices: seq<Point>, segments: seq<Segment>, tolerance: real): seq<Ring> {
    seq(|parts|, i requires 0 <= i < |parts| => MovedRing(parts[i], vertices, segments, tolerance))
  }

  // The coordinates that move, in order, each with its evidence.
  function Changes(points: seq<Point>, vertices: seq<Point>, segments: seq<Segment>, tolerance: real): seq<SnapChange> {
    if points == [] then []
    else
      var n := |points| - 1;
      Changes(points[..n], vertices, segments, tolerance)
      + (match SnapOf(points[n], vertices, segments, tolerance) case None => [] case Some(c) => [c])
  }

  function Snapped(engine: Engine, candidate: Polygon, references: seq<Polygon>, tolerance: real): Option<SnapResult> {
    if tolerance <= 0.0 then
      match engine.encode(candidate.shape)
      case None => None
      case Some(text) => Some(SnapResult(text, candidate, []))
    else
      var rings := AllRings(references);
      var vertices, segments := Flat(rings), AllSegments(rings);
      var transformed := Shape(MovedParts(candidate.shape.parts, vertices, segments, tolerance));
      if !engine.valid(transformed) then None
      else
        match engine.encode(transformed)
        case None => None
        case Some(text) =>
          match Parsed(engine, text)
          case None => None
          case Some(polygon) =>
            Some(SnapResult(text, polygon, Changes(Flat(candidate.shape.parts), vertices, segments, tolerance)))
  }

  method SnapToReferences(engine: Engine, candidate: Polygon, references: seq<Polygon>, tolerance: real)
    returns (result: Option<SnapResult>)
    ensures result == Snapped(engine, candidate, references, tolerance)
  {
    if tolerance <= 0.0 {
      var encoded := engine.encode(candidate.shape);
      return if encoded.None? then None else Some(SnapResult(encoded.value, candidate, []));
    }
    var vertices, segments := CollectReferences(references);
    var transformed, changes := TransformXY(candidate.shape, vertices, segments, tolerance);
    if !engine.valid(transformed) {
      return None;
    }
    var encoded := engine.encode(transformed);
    if encoded.None? {
      return None;
    }
    var snapped := ParsePolygon(engine, encoded.value);
    if snapped.None? {
      return None;
    }
    return Some(SnapResult(encoded.value, snapped.value, changes));
  }

  // Visits every coordinate of every ring in order; the callback records what it moves.
  method TransformXY(shape: Shape, vertices: seq<Point>, segments: seq<Segment>, tolerance: real)
    returns (transformed: Shape, changes: seq<SnapChange>)
    ensures transformed == Shape(MovedParts(shape.parts, vertices, segments, tolerance))
    ensures changes == Changes(Flat(shape.parts), vertices, segments, tolerance)
  {
    changes := [];
    var parts: seq<Ring> := [];
    for k := 0 to |shape.parts|
      invariant parts == MovedParts(shape.parts[..k], vertices, segments, tolerance)
      invariant changes == Changes(Flat(shape.parts[..k]), vertices, segments, tolerance)
    {
      assert shape.parts[..k + 1][..k] == shape.parts[..k];
      var moved, more := TransformRing(shape.parts[k], vertices, segments, tolerance);
      ChangesConcat(Flat(shape.parts[..k]), shape.parts[k], vertices, segments, tolerance);
      changes := changes + more;
      parts := parts + [moved];
    }
    assert shape.parts[..|shape.parts|] == shape.parts;
    transformed := Shape(parts);
  }

  method TransformRing(ring: Ring, vertices: seq<Point>, segments: seq<Segment>, tolerance: real)
    returns (moved: Ring, changes: seq<SnapChange>)
    ensures moved == MovedRing(ring, vertices, segments, tolerance)
    ensures changes == Changes(ring, vertices, segments, tolerance)
  {
    moved, changes := [], [];
    for i := 0 to |ring|
      invariant moved == MovedRing(ring[..i], vertices, segments, tolerance)
      invariant changes == Changes(ring[..i], vertices, segments, tolerance)
    {
      assert ring[..i + 1][..i] == ring[..i];
      var change := NearestSnapTarget(ring[i], vertices, segments, tolerance);
      if change.None? {
        moved := moved + [ring[i]];
      } else {
        changes := changes + [change.value];
        moved := moved + [change.value.after];
      }
    }
    assert ring[..|ring|] == ring;
  }

  lemma {:induction false} ChangesConcat(a: seq<Point>, b: seq<Point>, vertices: seq<Point>, segments: seq<Segment>, tolerance: real)
    ensures Changes(a + b, vertices, segments, tolerance)
         == Changes(a, vertices, segments, tolerance) + Changes(b, vertices, segments, tolerance)
  {
    if b == [] {
      assert a + b == a;
    } else {
      ChangesConcat(a, b[..|b| - 1], vertices, segments, tolerance);
      assert (a + b)[..|a + b| - 1] == a + b[..|b| - 1];
    }
  }

  lemma {:induction false} RingEndsListed(ring: Ring)
    ensures EndsListed(ring, RingSegments(ring))
  {
    if |ring| >= 2 {
      RingEndsListed(ring[..|ring| - 1]);
    }
  }

  // What SnapToReferences lists as segments always has its ends listed as vertices.
  lemma {:induction false} ReferenceEndsListed(rings: seq<Ring>)
    ensures EndsListed(Flat(rings), AllSegments(rings))
  {
    if rings != [] {
      ReferenceEndsListed(rings[..|rings| - 1]);
      RingEndsListed(rings[|rings| - 1]);
    }
  }

  function CountMoved(points: seq<Point>, vertices: seq<Point>, segments: seq<Segment>, tolerance: real): nat {
    if points == [] then 0
    else
      CountMoved(points[..|points| - 1], vertices, segments, tolerance)
      + (if Moved(points[|points| - 1], vertices, segments, tolerance) != points[|points| - 1] then 1 else 0)
  }

  // `changes` lists exactly the moved coordinates, in order: entry n is the n-th of them.
  lemma {:induction false} ChangesAreTheMoves(points: seq<Point>, vertices: seq<Point>, segments: seq<Segment>, tolerance: real, i: nat)
    requires i < |points|
    ensures |Changes(points, vertices, segments, tolerance)| == CountMoved(points, vertices, segments, tolerance)
    ensures Moved(points[i], vertices, segments, tolerance) != points[i] ==>
      var n := CountMoved(points[..i], vertices, segments, tolerance);
      var changes := Changes(points, vertices, segments, tolerance);
      && n < |changes|
      && changes[n].before == points[i] && changes[n].after == Moved(points[i], vertices, segments, tolerance)
      && Within(changes[n].before, changes[n].after, tolerance)
  {
    var front := points[..|points| - 1];
    CountsAgree(front, vertices, segments, tolerance);
    CountsAgree(points, vertices, segments, tolerance);
    if i < |front| {
      ChangesAreTheMoves(front, vertices, segments, tolerance, i);
      assert front[..i] == points[..i];
    } else {
      assert points[..i] == front;
      NearestIsEarliestMinimum(points[i], vertices, tolerance);
      NearestIsEarliestMinimum(points[i], Projections(points[i], segments), tolerance);
    }
  }

  lemma {:induction false} CountsAgree(points: seq<Point>, vertices: seq<Point>, segments: seq<Segment>, tolerance: real)
    ensures |Changes(points, vertices, segments, tolerance)| == CountMoved(points, vertices, segments, tolerance)
  {
    if points != [] {
      CountsAgree(points[..|points| - 1], vertices, segments, tolerance);
    }
  }

  // A closed ring stays closed and keeps its number of points.
  lemma MovedRingStaysClosed(ring: Ring, vertices: seq<Point>, segments: seq<Segment>, tolerance: real)
    requires |ring| >= 4 && ring[0] == ring[|ring| - 1]
    ensures var moved := MovedRing(ring, vertices, segments, tolerance);
            |moved| == |ring| && moved[0] == moved[|moved| - 1]
  {
  }

  // The guarantee of an edge snap for the lists SnapToReferences builds.
  lemma ReferenceEdgeSnapIsInterior(source: Point, references: seq<Polygon>, tolerance: real, change: SnapChange)
    requires var rings := AllRings(references);
             SnapOf(source, Flat(rings), AllSegments(rings), tolerance) == Some(change) && change.kind == EdgeSnap
    ensures exists i, t: real :: 0 <= i < |AllSegments(AllRings(references))| && 0.0 < t < 1.0
              && change.after == Along(AllSegments(AllRings(references))[i], t)
    ensures forall q :: OnSome(q, AllSegments(AllRings(references))) ==> DistSq(source, change.after) <= DistSq(source, q)
  {
    var rings := AllRings(references);
    ReferenceEndsListed(rings);
    EdgeTargetIsRight(source, Flat(rings), AllSegments(rings), tolerance, change);
  }

  lemma NearestOfOne(source: Point, a: Point, tolerance: real)
    ensures Nearest(source, [a], tolerance) == if Within(source, a, tolerance) then Some(0) else None
  {
    assert [a][..0] == [];
  }

  lemma FootThenVertex(p: Point, q: Point, o: Point, edge: Segment, tolerance: real)
    requires !Within(p, o, tolerance) && Project(p, edge) == q
    requires Within(p, q, tolerance) && Within(q, o, tolerance) && p != q && q != o
    ensures Moved(p, [o], [edge], tolerance) == q && Moved(q, [o], [edge], tolerance) == o
  {
    NearestOfOne(p, o, tolerance);
    NearestOfOne(q, o, tolerance);
    NearestOfOne(p, q, tolerance);
    assert Projections(p, [edge]) == [q];
  }

  // Snapping is not idempotent: the foot of (3, 4) on an edge is within reach of the edge's end.
  lemma SnappingTwiceCanMoveOn(p: Point, q: Point, edge: Segment, tolerance: real)
    requires p == Point(3.0, 4.0) && q == Point(3.0, 0.0)
    requires edge == Segment(Point(0.0, 0.0), Point(10.0, 0.0)) && tolerance == 4.0
    ensures Moved(p, [edge.start], [edge], tolerance) == q
    ensures Moved(q, [edge.start], [edge], tolerance) == edge.start
  {
    FootOnTheAxis();
    TriangleDistances(p, q, edge.start);
    assert Within(p, q, tolerance) && Within(q, edge.start, tolerance) && !Within(p, edge.start, tolerance);
    FootThenVertex(p, q, edge.start, edge, tolerance);
  }

  lemma TriangleDistances(p: Point, q: Point, o: Point)
    requires p == Point(3.0, 4.0) && q == Point(3.0, 0.0) && o == Point(0.0, 0.0)
    ensures DistSq(p, o) == 25.0 && DistSq(q, o) == 9.0 && DistSq(p, q) == 16.0 && Sq(4.0) == 16.0
  {
  }

  lemma FootOnTheAxis()
    ensures Project(Point(3.0, 4.0), Segment(Point(0.0, 0.0), Point(10.0, 0.0))) == Point(3.0, 0.0)
  {
    var p, edge := Point(3.0, 4.0), Segment(Point(0.0, 0.0), Point(10.0, 0.0));
    assert Advance(p, edge) == 30.0;
    assert LengthSq(edge) == 100.0;
    assert Ratio(p, edge) == 0.3;
  }
}
