/**
 The result of snapping, said of the coordinates of the candidate and of the
 references: where every coordinate goes, what is returned, what is listed.
 */
module SnapResults {
  import opened Basics
  import opened Plane
  import opened Polygons
  import opened Snapping

  // ---- The reference points, ring by ring ----

  ghost predicate HasRing(references: seq<Polygon>, ring: Ring) {
    exists r :: 0 <= r < |references| && ring in references[r].rings
  }

  ghost predicate ReferenceVertex(references: seq<Polygon>, v: Point) {
    exists ring :: HasRing(references, ring) && v in ring
  }

  ghost predicate OnEdgeOf(ring: Ring, q: Point) {
    exists i :: 0 < i < |ring| && OnSegment(q, Segment(ring[i - 1], ring[i]))
  }

  ghost predicate OnReferenceEdge(references: seq<Polygon>, q: Point) {
    exists ring :: HasRing(references, ring) && OnEdgeOf(ring, q)
  }

  ghost predicate VertexReachable(references: seq<Polygon>, source: Point, tolerance: real) {
    exists v :: ReferenceVertex(references, v) && DistSq(source, v) <= Sq(tolerance)
  }

  ghost predicate EdgeReachable(references: seq<Polygon>, source: Point, tolerance: real) {
    exists q :: OnReferenceEdge(references, q) && DistSq(source, q) <= Sq(tolerance)
  }

  /** Where a coordinate belongs: on a nearest reference vertex if one is within
      tolerance, else on a nearest edge point if one is, else where it was. */
  ghost predicate Settled(references: seq<Polygon>, source: Point, to: Point, tolerance: real) {
    && DistSq(source, to) <= Sq(tolerance)
    && if VertexReachable(references, source, tolerance) then
         ReferenceVertex(references, to) && forall v :: ReferenceVertex(references, v) ==> DistSq(source, to) <= DistSq(source, v)
       else if EdgeReachable(references, source, tolerance) then
         OnReferenceEdge(references, to) && forall q :: OnReferenceEdge(references, q) ==> DistSq(source, to) <= DistSq(source, q)
       else to == source
  }

  // ---- The lists SnapToReferences collects ----

  lemma {:induction false} RingsListed(references: seq<Polygon>, ring: Ring)
    ensures ring in AllRings(references) <==> HasRing(references, ring)
  {
    if references != [] {
      var front, last := references[..|references| - 1], references[|references| - 1];
      RingsListed(front, ring);
      if r :| 0 <= r < |references| && ring in references[r].rings {
        assert r < |front| ==> ring in front[r].rings;
      }
      if r :| 0 <= r < |front| && ring in front[r].rings {
        assert ring in references[r].rings;
      }
    }
  }

  lemma {:induction false} VerticesListed(rings: seq<Ring>, v: Point)
    ensures v in Flat(rings) <==> exists ring :: ring in rings && v in ring
  {
    if rings != [] {
      var front, last := rings[..|rings| - 1], rings[|rings| - 1];
      assert rings == front + [last];
      VerticesListed(front, v);
    }
  }

  lemma EdgesSnoc(front: Ring, p: Point, q: Point)
    requires front != []
    ensures OnEdgeOf(front + [p], q) <==> OnEdgeOf(front, q) || OnSegment(q, Segment(front[|front| - 1], p))
  {
    hide OnSegment;
    var ring := front + [p];
    if i :| 0 < i < |front| && OnSegment(q, Segment(front[i - 1], front[i])) {
      assert OnSegment(q, Segment(ring[i - 1], ring[i]));
    }
    if OnSegment(q, Segment(front[|front| - 1], p)) {
      assert OnSegment(q, Segment(ring[|front| - 1], ring[|front|]));
    }
  }

  lemma {:induction false} RingEdges(ring: Ring, q: Point)
    ensures OnSome(q, RingSegments(ring)) <==> OnEdgeOf(ring, q)
  {
    hide OnSegment;
    if |ring| >= 2 {
      var front, last := ring[..|ring| - 1], Segment(ring[|ring| - 2], ring[|ring| - 1]);
      RingEdges(front, q);
      SomeSnoc(q, RingSegments(front), [last]);
      assert OnSome(q, [last]) <==> OnSegment(q, last) by {
        assert [last][0] == last;
      }
      assert ring == front + [ring[|ring| - 1]];
      hide OnSome, OnEdgeOf;
      EdgesSnoc(front, ring[|ring| - 1], q);
    }
  }

  lemma SomeSnoc(q: Point, a: seq<Segment>, b: seq<Segment>)
    ensures OnSome(q, a + b) <==> OnSome(q, a) || OnSome(q, b)
  {
    hide OnSegment;
    if i :| 0 <= i < |a| && OnSegment(q, a[i]) {
      assert OnSegment(q, (a + b)[i]);
    }
    if i :| 0 <= i < |b| && OnSegment(q, b[i]) {
      assert OnSegment(q, (a + b)[|a| + i]);
    }
  }

  lemma {:induction false} EdgesListed(rings: seq<Ring>, q: Point)
    ensures OnSome(q, AllSegments(rings)) <==> exists ring :: ring in rings && OnEdgeOf(ring, q)
  {
    hide OnEdgeOf, OnSegment;
    if rings != [] {
      var front, last := rings[..|rings| - 1], rings[|rings| - 1];
      assert rings == front + [last];
      EdgesListed(front, q);
      RingEdges(last, q);
      hide OnSome;
      SomeSnoc(q, AllSegments(front), RingSegments(last));
    }
  }

  lemma ReferencesListed(references: seq<Polygon>)
    ensures forall v :: v in Flat(AllRings(references)) <==> ReferenceVertex(references, v)
    ensures forall q :: OnSome(q, AllSegments(AllRings(references))) <==> OnReferenceEdge(references, q)
  {
    hide HasRing, OnEdgeOf, OnSome;
    forall ring ensures ring in AllRings(references) <==> HasRing(references, ring) {
      RingsListed(references, ring);
    }
    forall v ensures v in Flat(AllRings(references)) <==> ReferenceVertex(references, v) {
      VerticesListed(AllRings(references), v);
    }
    forall q ensures OnSome(q, AllSegments(AllRings(references))) <==> OnReferenceEdge(references, q) {
      EdgesListed(AllRings(references), q);
    }
  }

  /** Ties go to what is listed first: polygon after polygon, ring after ring,
      and in a ring point after point, with the segment that ends at each. */
  lemma ListedInOrder(first: seq<Polygon>, more: seq<Polygon>, rings: seq<Ring>, rest: seq<Ring>, ring: Ring, i: nat)
    ensures AllRings(first + more) == AllRings(first) + AllRings(more)
    ensures Flat(rings + rest) == Flat(rings) + Flat(rest) && AllSegments(rings + rest) == AllSegments(rings) + AllSegments(rest)
    ensures Flat([ring]) == ring && AllSegments([ring]) == RingSegments(ring)
    ensures i + 1 < |ring| ==> |RingSegments(ring)| == |ring| - 1 && RingSegments(ring)[i] == Segment(ring[i], ring[i + 1])
  {
    PolygonsConcat(first, more);
    FlatConcat(rings, rest);
    SegmentsConcat(rings, rest);
    assert [ring][..0] == [];
    if i + 1 < |ring| {
      SegmentAt(ring, i);
    }
  }

  lemma Associative<T>(a: seq<T>, b: seq<T>, c: seq<T>)
    ensures (a + b) + c == a + (b + c)
  {
  }

  lemma PolygonsSnoc(first: seq<Polygon>, last: Polygon)
    ensures AllRings(first + [last]) == AllRings(first) + last.rings
  {
    assert (first + [last])[..|first|] == first;
  }

  lemma {:induction false} PolygonsConcat(first: seq<Polygon>, more: seq<Polygon>)
    ensures AllRings(first + more) == AllRings(first) + AllRings(more)
  {
    if more == [] {
      assert first + more == first;
    } else {
      var front, last := more[..|more| - 1], more[|more| - 1];
      assert more == front + [last];
      hide AllRings;
      PolygonsConcat(first, front);
      Associative(first, front, [last]);
      PolygonsSnoc(first + front, last);
      PolygonsSnoc(front, last);
      Associative(AllRings(first), AllRings(front), last.rings);
    }
  }

  lemma {:induction false} FlatConcat(rings: seq<Ring>, rest: seq<Ring>)
    ensures Flat(rings + rest) == Flat(rings) + Flat(rest)
  {
    if rest == [] {
      assert rings + rest == rings;
    } else {
      var front, last := rest[..|rest| - 1], rest[|rest| - 1];
      assert rest == front + [last];
      hide Flat;
      FlatConcat(rings, front);
      Associative(rings, front, [last]);
      RingsSnoc(rings + front, last);
      RingsSnoc(front, last);
      Associative(Flat(rings), Flat(front), last);
    }
  }

  lemma SegmentsSnoc(rings: seq<Ring>, ring: Ring)
    ensures AllSegments(rings + [ring]) == AllSegments(rings) + RingSegments(ring)
  {
    hide RingSegments;
    assert (rings + [ring])[..|rings|] == rings;
  }

  lemma {:induction false} SegmentsConcat(rings: seq<Ring>, rest: seq<Ring>)
    ensures AllSegments(rings + rest) == AllSegments(rings) + AllSegments(rest)
  {
    if rest == [] {
      assert rings + rest == rings;
    } else {
      var front, last := rest[..|rest| - 1], rest[|rest| - 1];
      assert rest == front + [last];
      hide AllSegments, RingSegments;
      SegmentsConcat(rings, front);
      Associative(rings, front, [last]);
      SegmentsSnoc(rings + front, last);
      SegmentsSnoc(front, last);
      Associative(AllSegments(rings), AllSegments(front), RingSegments(last));
    }
  }

  lemma {:induction false} SegmentAt(ring: Ring, i: nat)
    requires i + 1 < |ring|
    ensures |RingSegments(ring)| == |ring| - 1 && RingSegments(ring)[i] == Segment(ring[i], ring[i + 1])
  {
    if |ring| > 2 {
      SegmentAt(ring[..|ring| - 1], if i + 2 < |ring| then i else 0);
    }
  }

  // ---- One coordinate ----

  lemma VertexTargets(source: Point, vertices: seq<Point>, tolerance: real)
    requires 0.0 < tolerance
    ensures var best := Nearest(source, vertices, tolerance);
            && (best.Some? <==> exists v :: v in vertices && DistSq(source, v) <= Sq(tolerance))
            && (best.Some? ==> vertices[best.value] in vertices && DistSq(source, vertices[best.value]) <= Sq(tolerance)
                               && forall v :: v in vertices ==> DistSq(source, vertices[best.value]) <= DistSq(source, v))
  {
    NearestIsEarliestMinimum(source, vertices, tolerance);
  }

  lemma EdgeTargets(source: Point, segments: seq<Segment>, tolerance: real)
    requires 0.0 < tolerance
    ensures var feet := Projections(source, segments);
            var best := Nearest(source, feet, tolerance);
            && (best.Some? <==> exists q :: OnSome(q, segments) && DistSq(source, q) <= Sq(tolerance))
            && (best.Some? ==> OnSome(feet[best.value], segments) && DistSq(source, feet[best.value]) <= Sq(tolerance)
                               && forall q :: OnSome(q, segments) ==> DistSq(source, feet[best.value]) <= DistSq(source, q))
  {
    var feet := Projections(source, segments);
    var best := Nearest(source, feet, tolerance);
    NearestIsEarliestMinimum(source, feet, tolerance);
    if best.Some? {
      ProjectionOnSegment(source, segments[best.value]);
      assert OnSegment(feet[best.value], segments[best.value]);
    }
    forall q | OnSome(q, segments)
      ensures if best.None? then !(DistSq(source, q) <= Sq(tolerance)) else DistSq(source, feet[best.value]) <= DistSq(source, q)
    {
      NearestFoot(source, segments, tolerance, q);
    }
  }

  lemma MovedIsSettled(references: seq<Polygon>, source: Point, tolerance: real)
    requires 0.0 < tolerance
    ensures var rings := AllRings(references);
            Settled(references, source, Moved(source, Flat(rings), AllSegments(rings), tolerance), tolerance)
  {
    var vertices, segments := Flat(AllRings(references)), AllSegments(AllRings(references));
    ReferencesListed(references);
    VertexTargets(source, vertices, tolerance);
    EdgeTargets(source, segments, tolerance);
    MovedWithinTolerance(source, vertices, segments, tolerance);
    hide ReferenceVertex, OnReferenceEdge, OnSome, Nearest, Projections, DistSq, Sq, Flat, AllSegments, AllRings;
  }

  lemma KindTellsReach(references: seq<Polygon>, source: Point, tolerance: real)
    requires 0.0 < tolerance
    ensures var rings := AllRings(references);
            var change := SnapOf(source, Flat(rings), AllSegments(rings), tolerance);
            change.Some? ==> (change.value.kind == VertexSnap <==> VertexReachable(references, source, tolerance))
  {
    var vertices, segments := Flat(AllRings(references)), AllSegments(AllRings(references));
    ReferencesListed(references);
    VertexTargets(source, vertices, tolerance);
    hide ReferenceVertex, OnReferenceEdge, OnSome, Nearest, Projections, DistSq, Sq, Flat, AllSegments, AllRings;
  }

  // ---- A whole boundary ----

  ghost predicate AllSettled(references: seq<Polygon>, before: Ring, after: Ring, tolerance: real) {
    |after| == |before| && forall i :: 0 <= i < |before| ==> Settled(references, before[i], after[i], tolerance)
  }

  // Ring by ring and point by point, every coordinate is where it belongs.
  ghost predicate ShapeSettled(references: seq<Polygon>, before: Shape, after: Shape, tolerance: real) {
    |after.parts| == |before.parts| && forall k :: 0 <= k < |before.parts| ==> AllSettled(references, before.parts[k], after.parts[k], tolerance)
  }

  lemma PartsSettle(references: seq<Polygon>, shape: Shape, tolerance: real)
    requires 0.0 < tolerance
    ensures var rings := AllRings(references);
            ShapeSettled(references, shape, Shape(MovedParts(shape.parts, Flat(rings), AllSegments(rings), tolerance)), tolerance)
  {
    hide Settled, Moved, Flat, AllSegments, AllRings;
    var vertices, segments := Flat(AllRings(references)), AllSegments(AllRings(references));
    forall k | 0 <= k < |shape.parts|
      ensures AllSettled(references, shape.parts[k], MovedRing(shape.parts[k], vertices, segments, tolerance), tolerance)
    {
      forall i | 0 <= i < |shape.parts[k]|
        ensures Settled(references, shape.parts[k][i], Moved(shape.parts[k][i], vertices, segments, tolerance), tolerance)
      {
        MovedIsSettled(references, shape.parts[k][i], tolerance);
      }
    }
  }

  // ---- The change list ----

  // Entry n of the list is about the coordinate at position at[n].
  ghost predicate ListsMoves(references: seq<Polygon>, before: Ring, after: Ring, tolerance: real, changes: seq<SnapChange>, at: seq<nat>) {
    && |before| == |after| && |at| == |changes|
    && (forall m, n :: 0 <= m < n < |at| ==> at[m] < at[n])
    && (forall n :: 0 <= n < |at| ==>
          && at[n] < |before| && before[at[n]] != after[at[n]]
          && changes[n].before == before[at[n]] && changes[n].after == after[at[n]]
          && changes[n].distanceSq == DistSq(before[at[n]], after[at[n]])
          && (changes[n].kind == VertexSnap <==> VertexReachable(references, before[at[n]], tolerance)))
    && (forall i :: 0 <= i < |before| && before[i] != after[i] ==> i in at)
  }

  // The list holds one entry for every coordinate that moved, in order, and no other.
  ghost predicate ListsExactlyMoves(references: seq<Polygon>, before: Ring, after: Ring, tolerance: real, changes: seq<SnapChange>) {
    exists at :: ListsMoves(references, before, after, tolerance, changes, at)
  }

  lemma {:induction false} ChangesListMoves(references: seq<Polygon>, points: Ring, tolerance: real)
    requires 0.0 < tolerance
    ensures var vertices, segments := Flat(AllRings(references)), AllSegments(AllRings(references));
            ListsExactlyMoves(references, points, MovedRing(points, vertices, segments, tolerance), tolerance, Changes(points, vertices, segments, tolerance))
  {
    hide Flat, AllSegments, AllRings, SnapOf, VertexReachable;
    var vertices, segments := Flat(AllRings(references)), AllSegments(AllRings(references));
    if points == [] {
      assert ListsMoves(references, points, MovedRing(points, vertices, segments, tolerance), tolerance, [], []);
    } else {
      var n := |points| - 1;
      ChangesListMoves(references, points[..n], tolerance);
      var before, changes := MovedRing(points[..n], vertices, segments, tolerance), Changes(points[..n], vertices, segments, tolerance);
      var at :| ListsMoves(references, points[..n], before, tolerance, changes, at);
      assert MovedRing(points, vertices, segments, tolerance) == before + [Moved(points[n], vertices, segments, tolerance)];
      assert points == points[..n] + [points[n]];
      OneMoreMove(references, points[..n], before, tolerance, changes, at, points[n]);
    }
  }

  lemma NoMove(references: seq<Polygon>, before: Ring, after: Ring, tolerance: real, changes: seq<SnapChange>, at: seq<nat>, p: Point)
    requires ListsMoves(references, before, after, tolerance, changes, at)
    ensures ListsMoves(references, before + [p], after + [p], tolerance, changes, at)
  {
    hide VertexReachable, DistSq;
    forall i | 0 <= i < |before + [p]| && (before + [p])[i] != (after + [p])[i] ensures i in at {
      assert i < |before| && before[i] != after[i];
    }
  }

  lemma AMove(references: seq<Polygon>, before: Ring, after: Ring, tolerance: real, changes: seq<SnapChange>, at: seq<nat>, c: SnapChange)
    requires ListsMoves(references, before, after, tolerance, changes, at)
    requires c.before != c.after && c.distanceSq == DistSq(c.before, c.after)
    requires c.kind == VertexSnap <==> VertexReachable(references, c.before, tolerance)
    ensures ListsMoves(references, before + [c.before], after + [c.after], tolerance, changes + [c], at + [|before|])
  {
    hide VertexReachable, DistSq;
    var at' := at + [|before|];
    forall i | 0 <= i < |before + [c.before]| && (before + [c.before])[i] != (after + [c.after])[i] ensures i in at' {
      if i < |before| {
        assert before[i] != after[i] && i in at;
      } else {
        assert at'[|at|] == i;
      }
    }
  }

  lemma OneMoreMove(references: seq<Polygon>, before: Ring, after: Ring, tolerance: real, changes: seq<SnapChange>, at: seq<nat>, p: Point)
    requires 0.0 < tolerance && ListsMoves(references, before, after, tolerance, changes, at)
    ensures var vertices, segments := Flat(AllRings(references)), AllSegments(AllRings(references));
            var change := SnapOf(p, vertices, segments, tolerance);
            ListsExactlyMoves(references, before + [p], after + [Moved(p, vertices, segments, tolerance)], tolerance,
                              changes + (match change case None => [] case Some(c) => [c]))
  {
    hide Flat, AllSegments, AllRings, VertexReachable, Target, ListsMoves;
    var vertices, segments := Flat(AllRings(references)), AllSegments(AllRings(references));
    KindTellsReach(references, p, tolerance);
    match SnapOf(p, vertices, segments, tolerance)
    case None =>
      NoMove(references, before, after, tolerance, changes, at, p);
      assert changes + [] == changes;
    case Some(c) => AMove(references, before, after, tolerance, changes, at, c);
  }

  lemma {:induction false} MovedFlat(parts: seq<Ring>, vertices: seq<Point>, segments: seq<Segment>, tolerance: real)
    ensures Flat(MovedParts(parts, vertices, segments, tolerance)) == MovedRing(Flat(parts), vertices, segments, tolerance)
  {
    if parts != [] {
      var n := |parts| - 1;
      MovedFlat(parts[..n], vertices, segments, tolerance);
      var moved := MovedParts(parts, vertices, segments, tolerance);
      assert moved[..n] == MovedParts(parts[..n], vertices, segments, tolerance);
      assert moved[n] == MovedRing(parts[n], vertices, segments, tolerance);
    }
  }

  // ---- What SnapToReferences returns ----

  // The result that belongs to a moved shape: its text, the polygon that text parses to, and what moved.
  ghost predicate ResultOf(engine: Engine, references: seq<Polygon>, before: Shape, moved: Shape, tolerance: real, result: SnapResult) {
    && engine.valid(moved) && engine.encode(moved) == Some(result.suggested)
    && Parsed(engine, result.suggested) == Some(result.polygon)
    && ListsExactlyMoves(references, Flat(before.parts), Flat(moved.parts), tolerance, result.changes)
  }

  ghost predicate Refused(engine: Engine, moved: Shape) {
    !engine.valid(moved) || engine.encode(moved).None? || Parsed(engine, engine.encode(moved).value).None?
  }

  /** With a positive tolerance there is a shape with every coordinate of the
      candidate where it belongs; the result is its text, the polygon that text
      parses to and the list of what moved, or a refusal exactly when that shape
      is invalid, cannot be encoded or does not parse. */
  lemma SnappingIsRight(engine: Engine, candidate: Polygon, references: seq<Polygon>, tolerance: real)
    requires 0.0 < tolerance
    ensures exists moved :: ShapeSettled(references, candidate.shape, moved, tolerance) &&
              match Snapped(engine, candidate, references, tolerance)
              case None => Refused(engine, moved)
              case Some(result) => ResultOf(engine, references, candidate.shape, moved, tolerance, result)
  {
    hide ShapeSettled, ListsExactlyMoves, AllRings, AllSegments, Flat, MovedParts, MovedRing, Changes, Parsed;
    var rings := AllRings(references);
    var vertices, segments := Flat(rings), AllSegments(rings);
    var moved := Shape(MovedParts(candidate.shape.parts, vertices, segments, tolerance));
    PartsSettle(references, candidate.shape, tolerance);
    MovedFlat(candidate.shape.parts, vertices, segments, tolerance);
    ChangesListMoves(references, Flat(candidate.shape.parts), tolerance);
  }

  // Without a tolerance nothing moves.
  lemma NoToleranceNoSnap(engine: Engine, candidate: Polygon, references: seq<Polygon>, tolerance: real)
    requires tolerance <= 0.0
    ensures match Snapped(engine, candidate, references, tolerance)
            case None => engine.encode(candidate.shape).None?
            case Some(result) => engine.encode(candidate.shape) == Some(result.suggested) && result.polygon == candidate && result.changes == []
  {
  }

  // Reading a text the engine has written gives back the shape.
  ghost predicate ReadsBack(engine: Engine) {
    forall s :: engine.encode(s).Some? && engine.decode(engine.encode(s).value).Some? ==> engine.decode(engine.encode(s).value) == Some(s)
  }

  /** When texts read back, the polygon that is compared with the neighbours is the
      moved one: each of its points is where the candidate's point belongs, within
      tolerance, and the list shows exactly the points that differ. */
  lemma SnappedPolygonIsRight(engine: Engine, candidate: Polygon, references: seq<Polygon>, tolerance: real, result: SnapResult)
    requires 0.0 < tolerance && ReadsBack(engine) && Snapped(engine, candidate, references, tolerance) == Some(result)
    ensures Parsed(engine, result.suggested) == Some(result.polygon) && result.polygon.rings == result.polygon.shape.parts
    ensures ShapeSettled(references, candidate.shape, result.polygon.shape, tolerance)
    ensures ListsExactlyMoves(references, Flat(candidate.shape.parts), Flat(result.polygon.rings), tolerance, result.changes)
  {
    SnappingIsRight(engine, candidate, references, tolerance);
    hide ShapeSettled, ListsExactlyMoves, Snapped, Flat;
  }
}
