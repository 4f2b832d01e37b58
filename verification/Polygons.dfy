/**
 Polygons accepted by the geometry package. The overlay library is a record of
 deterministic functions: nothing is assumed of them.
 */
module Polygons {
  import opened Basics
  import opened Plane

  // A geometry value: the coordinate sequences it is made of.
  datatype Shape = Shape(parts: seq<Ring>)

  datatype Engine = Engine(
    decode: string -> Option<Shape>,          // GeoJSON of a non-empty, valid Polygon
    encode: Shape -> Option<string>,          // GeoJSON text, or an encoding error
    valid: Shape -> bool,                     // topology validation
    area: Shape -> real,
    length: Shape -> real,
    boundary: Shape -> Shape,
    overlay: (Shape, Shape) -> Option<Shape>, // intersection, or an overlay error
    distance: (Shape, Shape) -> Option<real>  // undefined for empty geometry
  )

  datatype Polygon = Polygon(rings: seq<Ring>, area: real, shape: Shape)

  // Closure and length of a linear ring, and its winding (section 3.1.6 of RFC 7946).
  predicate RingAccepted(ring: Ring, exterior: bool) {
    && |ring| >= 4 && ring[0] == ring[|ring| - 1]
    && (if exterior then SignedAreaOf(ring) > 0.0 else SignedAreaOf(ring) < 0.0)
  }

  predicate RingsAccepted(rings: seq<Ring>) {
    forall i :: 0 <= i < |rings| ==> RingAccepted(rings[i], i == 0)
  }

  function Parsed(engine: Engine, raw: string): Option<Polygon> {
    match engine.decode(raw)
    case None => None
    case Some(shape) =>
      if RingsAccepted(shape.parts) && engine.area(shape) > 0.0
      then Some(Polygon(shape.parts, engine.area(shape), shape))
      else None
  }

  /** Accepted are exactly the decoded polygons of positive area whose rings are
      closed, have four points or more, and are wound outwards first, then inwards. */
  lemma ParsedExactly(engine: Engine, raw: string, p: Polygon)
    ensures Parsed(engine, raw) == Some(p) <==>
              && engine.decode(raw) == Some(p.shape) && p.rings == p.shape.parts && p.area == engine.area(p.shape) && 0.0 < p.area
              && (forall i :: 0 <= i < |p.rings| ==> |p.rings[i]| >= 4 && p.rings[i][0] == p.rings[i][|p.rings[i]| - 1])
              && (p.rings != [] ==> 0.0 < SignedAreaOf(p.rings[0]))
              && (forall i :: 0 < i < |p.rings| ==> SignedAreaOf(p.rings[i]) < 0.0)
  {
    hide SignedAreaOf;
    if RingsAccepted(p.rings) {
      assert forall i :: 0 <= i < |p.rings| ==> RingAccepted(p.rings[i], i == 0);
    }
  }

  method ParsePolygon(engine: Engine, raw: string) returns (polygon: Option<Polygon>)
    ensures polygon == Parsed(engine, raw)
  {
    var decoded := engine.decode(raw);
    if decoded.None? {
      return None;
    }
    var parts := decoded.value.parts;
    var rings: seq<Ring> := [];
    for index := 0 to |parts|
      invariant rings == parts[..index]
      invariant forall i :: 0 <= i < index ==> RingAccepted(parts[i], i == 0)
    {
      var points := parts[index];
      if |points| < 4 || points[0] != points[|points| - 1] {
        return None;
      }
      var orientation := SignedArea(points);
      if index == 0 && orientation <= 0.0 {
        return None;
      }
      if index > 0 && orientation >= 0.0 {
        return None;
      }
      rings := rings + [points];
    }
    assert rings == parts;
    var result := Polygon(rings, engine.area(decoded.value), decoded.value);
    if result.area <= 0.0 {
      return None;
    }
    return Some(result);
  }
}
