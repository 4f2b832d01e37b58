/**
 A library and a sequence of requests that reach the states the races start
 from: two parcels, two observations, a proposal, and a conflict whose
 suggestion is ready to be applied.
 */
module Samples {
  import opened Basics
  import Text
  import opened ParcelIds
  import opened Sorting
  import opened Lifecycles
  import opened Plane
  import opened Polygons
  import opened Snapping
  import opened Topology
  import opened Records
  import opened Analysis
  import opened Transactions
  import opened Protocol
  import opened Invariants
  import opened Interleaving
  import opened Refinement
  import opened Idempotency
  import opened ExactlyOnce
  import opened Calls

  // ---- A library that knows one square under two texts ----

  const SQUARE := Shape([[Point(0.0, 0.0), Point(1.0, 0.0), Point(1.0, 1.0), Point(0.0, 1.0), Point(0.0, 0.0)]])

  function Decoded(text: string): Option<Shape> {
    if text == "A" || text == "B" then Some(SQUARE) else None
  }

  // Everything is valid, of unit area, overlaps everything else, and is written "A".
  const ENGINE := Engine(Decoded, s => Some("A"), s => true, s => 1.0, s => 0.0, s => s, (a, b) => Some(a), (a, b) => None)

  const SAMPLE := Library(ENGINE, text => text, text => text == "C", text => text, text => true)

  lemma FourCornersAccepted(a: Point, b: Point, c: Point, d: Point)
    requires Cross(a, b) + Cross(b, c) + Cross(c, d) + Cross(d, a) > 0.0
    ensures RingAccepted([a, b, c, d, a], true)
  {
    AreaOfFour(a, b, c, d);
    hide DoubleArea, Cross;
  }

  lemma MulByBit(a: real, b: real)
    ensures b == 0.0 ==> Mul(a, b) == 0.0 && Mul(b, a) == 0.0
    ensures b == 1.0 ==> Mul(a, b) == a && Mul(b, a) == a
  {
  }

  lemma CrossOfBits(a: Point, b: Point)
    requires (b.x == 0.0 || b.x == 1.0) && (b.y == 0.0 || b.y == 1.0)
    ensures Cross(a, b) == (if b.y == 0.0 then 0.0 else a.x) - (if b.x == 0.0 then 0.0 else a.y)
  {
    MulByBit(a.x, b.y);
    MulByBit(a.y, b.x);
    hide Mul;
  }

  lemma UnitCorners(a: Point, b: Point, c: Point, d: Point)
    requires a.x == 0.0 && a.y == 0.0 && b.x == 1.0 && b.y == 0.0 && c.x == 1.0 && c.y == 1.0 && d.x == 0.0 && d.y == 1.0
    ensures RingsAccepted([[a, b, c, d, a]])
  {
    hide Cross, Mul, DoubleArea, SignedAreaOf, RingAccepted;
    CrossOfBits(a, b);
    CrossOfBits(b, c);
    CrossOfBits(c, d);
    CrossOfBits(d, a);
    FourCornersAccepted(a, b, c, d);
  }

  lemma SquareIsAccepted()
    ensures RingsAccepted(SQUARE.parts)
  {
    hide RingsAccepted;
    UnitCorners(Point(0.0, 0.0), Point(1.0, 0.0), Point(1.0, 1.0), Point(0.0, 1.0));
  }

  const UNIT := Polygon(SQUARE.parts, 1.0, SQUARE)

  lemma TextsParse(text: string)
    requires text == "A" || text == "B"
    ensures Parsed(ENGINE, text) == Some(UNIT)
  {
    SquareIsAccepted();
  }

  lemma NothingToTrim(s: string)
    requires s != "" && !Text.IsSpace(s[0]) && !Text.IsSpace(s[|s| - 1])
    ensures Text.TrimSpace(s) == s
  {
  }

  lemma SampleIsTextual()
    ensures Textual(SAMPLE)
  {
    forall t | SAMPLE.engine.decode(t).Some? ensures Text.NulFree(t) {
    }
    forall t | SAMPLE.crsAccepted(t) ensures Text.NulFree(SAMPLE.upper(Text.TrimSpace(t))) {
      NothingToTrim("C");
    }
  }

  // ---- The analysis of a parcel beside one neighbour ----

  const OVERLAP := Finding(Overlap, "A", 1.0, [2])

  lemma OneNeighbour(n: Parcel)
    requires n.id == 2 && n.boundary == "A"
    ensures References(SAMPLE, [n]) == Some([ParcelReference(2, UNIT)])
  {
    TextsParse("A");
    hide Parsed;
    var ns, r := [n], ParcelReference(2, UNIT);
    assert ns[..0] == [] && References(SAMPLE, ns[..0]) == Some([]);
    assert [] + [r] == [r];
  }

  lemma OneOverlap(tolerance: real)
    requires tolerance == 1.0
    ensures FindingsOf(ENGINE, SQUARE, SQUARE, [ParcelReference(2, UNIT)], tolerance) == Some([OVERLAP])
  {
    var ns := [ParcelReference(2, UNIT)];
    OrderedIsSorted(ns, RefId);
    assert ns[..0] == [];
    assert OverlapFinding(ENGINE, SQUARE, ns[0], tolerance) == Some([OVERLAP]);
    assert GapFinding(ENGINE, SQUARE, SQUARE, ns[0], tolerance) == Some([]);
    assert DanglingFinding(ENGINE, SQUARE, ns[0], tolerance) == Some([]);
    assert [OVERLAP] + [] == [OVERLAP] && [] + [OVERLAP] == [OVERLAP];
    assert Against(ENGINE, SQUARE, SQUARE, ns[0], tolerance) == Some([OVERLAP]);
    assert AgainstAll(ENGINE, SQUARE, SQUARE, ns, tolerance) == Some([OVERLAP]);
    assert [OVERLAP][..0] == [];
    assert Deduplicated([OVERLAP]) == [OVERLAP];
  }

  lemma SampleSnaps(polygons: seq<Polygon>, tolerance: real)
    requires tolerance > 0.0
    ensures var snapped := Snapped(ENGINE, UNIT, polygons, tolerance);
            snapped.Some? && snapped.value.suggested == "A" && snapped.value.polygon == UNIT
  {
    TextsParse("A");
    hide Parsed, AllRings, Flat, AllSegments, MovedParts, Changes;
  }

  lemma SampleAnalysis(n: Parcel, tolerance: Micrometres)
    requires n.id == 2 && n.boundary == "A" && tolerance == 1000000
    ensures Compute(SAMPLE, "A", "A", [n], tolerance) == Ok(Outcome("A", [OVERLAP]))
  {
    hide FindingsOf, Parsed, References, Snapped, Compute, PolygonsOf;
    TextsParse("A");
    OneNeighbour(n);
    assert Metres(tolerance) == 1.0;
    OneOverlap(1.0);
    SampleSnaps([UNIT] + PolygonsOf([ParcelReference(2, UNIT)]), 1.0);
    assert SAMPLE.engine == ENGINE;
    assert Found(SAMPLE, "A", "A", [n], tolerance, Outcome("A", [OVERLAP]));
    ComputedIsFound(SAMPLE, "A", "A", [n], tolerance, Outcome("A", [OVERLAP]));
  }

  // ---- Requests that succeed ----

  function NewRow(lib: Library, n: NewParcel, area: real, id: Id): Parcel {
    Parcel(id, Text.TrimSpace(n.code), Text.TrimSpace(n.name), n.boundary, lib.upper(Text.TrimSpace(n.crs)), area, 1,
           Text.TrimSpace(n.owner), if n.state == "" then "active" else n.state)
  }

  // The store after a request, but for the log.
  ghost predicate Becomes(d': Db, tables: Db) {
    d' == tables.(audits := d'.audits)
  }

  lemma ParcelServed(lib: Library, d: Db, n: NewParcel, actor: Actor, ids: Ids)
    requires lib.crsAccepted(n.crs) && Parsed(lib.engine, n.boundary).Some? && !Text.Blank(actor.requestId)
    requires ids.row !in d.parcels && !ParcelCodeTaken(d, Text.TrimSpace(n.code))
    ensures Becomes(Serve(lib, d, CreateParcelRequest(n), actor, ids).0,
                    d.(parcels := d.parcels[ids.row := NewRow(lib, n, Parsed(lib.engine, n.boundary).value.area, ids.row)]))
  {
    hide RunAlone, Parsed;
    ServedInOneLookUp(lib, d, CreateParcelRequest(n), actor, ids);
  }

  lemma ObservationServed(lib: Library, d: Db, n: NewObservation, actor: Actor, ids: Ids) returns (row: Observation)
    requires n.parcelId in d.parcels && lib.pointAccepted(n.evidence.point) && !Text.Blank(actor.requestId) && n.state == None
    requires ids.row !in d.observations && !ObservationCodeTaken(d, Text.TrimSpace(n.code))
    ensures row.id == ids.row && row.parcelId == n.parcelId && row.code == Text.TrimSpace(n.code) && row.state == Usable && row.version == 1
    ensures Becomes(Serve(lib, d, ImportObservationRequest(n), actor, ids).0, d.(observations := d.observations[ids.row := row]))
  {
    hide RunAlone;
    ServedInOneLookUp(lib, d, ImportObservationRequest(n), actor, ids);
    row := Serve(lib, d, ImportObservationRequest(n), actor, ids).0.observations[ids.row];
  }

  lemma ProposalServed(lib: Library, d: Db, n: NewProposal, actor: Actor, ids: Ids)
    requires n.parcelId in d.parcels && d.parcels[n.parcelId].version == n.baseVersion && Parsed(lib.engine, n.boundary).Some?
    requires n.observationIds == [] && ids.row !in d.proposals && !Text.Blank(actor.requestId)
    ensures Becomes(Serve(lib, d, CreateProposalRequest(n), actor, ids).0,
                    d.(proposals := d.proposals[ids.row := CreatedProposal(lib, d.parcels[n.parcelId], n, actor).(id := ids.row)]))
  {
    hide RunAlone, Parsed, CreatedProposal;
    var c, parcel := Client(CreateProposalRequest(n), actor, Start), d.parcels[n.parcelId];
    RunReading(lib, d, c, ids);
    RunReading(lib, d, c.(stage := ReadEvidence(parcel, n, 0)), ids);
    RunCommit(lib, d, c.(stage := Commit(InsertProposal(CreatedProposal(lib, parcel, n, actor)))), ids);
  }

  lemma ConflictServed(lib: Library, d: Db, id: Id, to: ConflictState, actor: Actor, ids: Ids)
    requires id in d.conflicts && d.conflicts[id].id == id && CanConflictTransition(d.conflicts[id].state, to) && !Text.Blank(actor.requestId)
    requires to != Resolved && to != Closed
    ensures Becomes(Serve(lib, d, MoveConflictRequest(id, to), actor, ids).0, d.(conflicts := d.conflicts[id := d.conflicts[id].(state := to)]))
  {
    hide RunAlone;
    ServedInOneLookUp(lib, d, MoveConflictRequest(id, to), actor, ids);
  }

  lemma OneItemInserted(d: Db, item: Conflict, ids: seq<Id>, actor: Actor, parcelId: Id)
    requires ids != [] && ids[0] !in d.conflicts && !Text.Blank(actor.requestId)
    ensures var mid := InsertConflicts(d, [item], ids, actor, parcelId);
            && mid.Some?
            && mid.value == d.(conflicts := d.conflicts[ids[0] := item.(id := ids[0])], audits := mid.value.audits)
  {
    assert [item][..0] == [] && InsertConflicts(d, [], ids, actor, parcelId) == Some(d);
  }

  ghost predicate OneRunMore(d: Db, d': Db, id: Id, actorId: Id) {
    d'.runs.Keys == d.runs.Keys + {id} && d'.runs[id].actorId == actorId && forall k :: k in d.runs ==> d'.runs[k] == d.runs[k]
  }

  lemma OneItemRecorded(d: Db, item: Conflict, run: DetectionRun, parcelId: Id, actor: Actor, ids: Ids)
    requires ids.items != [] && ids.items[0] !in d.conflicts && ids.row !in d.runs && !Text.Blank(actor.requestId)
    requires !RunKeyTaken(d, run.actorId, run.key)
    ensures var done := Execute(d, RecordRun([item], run, parcelId), actor, ids);
            && done.Ok?
            && Becomes(done.value.db, d.(conflicts := d.conflicts[ids.items[0] := item.(id := ids.items[0])], runs := done.value.db.runs))
            && OneRunMore(d, done.value.db, ids.row, run.actorId)
  {
    hide InsertConflicts;
    OneItemInserted(d, item, ids.items, actor, parcelId);
  }

  // A detection with a free key that finds one thing.
  lemma DetectionRecorded(lib: Library, d: Db, q: Request, actor: Actor, ids: Ids, item: Conflict, run: DetectionRun, parcelId: Id)
    requires StoreOk(lib, d) && q.DetectRequest? && KeyAccepted(q.key) && !RunKeyTaken(d, actor.id, Text.TrimSpace(q.key))
    requires RecordedNow(lib, d, q, actor) == Some(Commit(RecordRun([item], run, parcelId)))
    requires run.actorId == actor.id && run.key == Text.TrimSpace(q.key) && !Text.Blank(actor.requestId)
    requires ids.items != [] && ids.items[0] !in d.conflicts && ids.row !in d.runs
    ensures var d' := Serve(lib, d, q, actor, ids).0;
            && Becomes(d', d.(conflicts := d.conflicts[ids.items[0] := item.(id := ids.items[0])], runs := d'.runs))
            && OneRunMore(d, d', ids.row, run.actorId)
  {
    hide StoreOk, RunAlone, Serve, RecordedNow, KeyAccepted, Execute, RunKeyTaken;
    DetectionServed(lib, d, q, actor, ids);
    OneItemRecorded(d, item, run, parcelId, actor, ids);
    RunCommit(lib, d, Client(q, actor, Commit(RecordRun([item], run, parcelId))), ids);
  }
}
