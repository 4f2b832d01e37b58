/**
 No false alarm and no miss: what the stored conflicts of a run say of the rows
 it read, in overlays, distances and lengths.
 */
module ConflictEvidence {
  import opened Basics
  import opened ParcelIds
  import opened Sorting
  import opened Polygons
  import opened Snapping
  import opened SnapResults
  import opened Topology
  import opened TopologyReports
  import opened Records
  import opened Analysis
  import opened Protocol
  import opened Invariants
  import opened Interleaving
  import opened ExactlyOnce
  import opened DetectionInputs
  import opened StoredRuns
  import opened Effects
  import opened Verdicts

  // The polygons a detection works on: the parcel's, the proposed one, the one compared, and the neighbours'.
  datatype Scene = Scene(base: Polygon, proposed: Polygon, compared: Polygon, neighbours: seq<ParcelReference>)

  // The scene of a run: parsed texts, and the suggestion as what is compared.
  ghost predicate SceneOf(lib: Library, proposal: Proposal, b: Basis, scene: Scene) {
    && Parsed(lib.engine, b.rows.parcel.boundary) == Some(scene.base)
    && Parsed(lib.engine, proposal.boundary) == Some(scene.proposed)
    && (forall n :: n in b.rows.neighbours ==> Parses(lib, n.boundary)) && scene.neighbours == Neighbours(lib, b.rows.neighbours)
    && (b.tolerance == 0 ==> scene.compared == scene.proposed)
    && (b.tolerance > 0 ==>
          && Parsed(lib.engine, b.outcome.suggestion) == Some(scene.compared)
          && (ReadsBack(lib.engine) ==>
                ShapeSettled([scene.base] + PolygonsOf(scene.neighbours), scene.proposed.shape, scene.compared.shape, Metres(b.tolerance))))
  }

  ghost predicate GivenBy(e: Engine, scene: Scene, n: ParcelReference, tolerance: Micrometres, f: Finding) {
    Gives(e, scene.base.shape, scene.compared.shape, n, Metres(tolerance), f)
  }

  // The conflict is about the parcel and this neighbour, whose condition it states with its evidence and magnitude.
  ghost predicate Justified(e: Engine, scene: Scene, n: ParcelReference, tolerance: Micrometres, parcel: Id, c: Conflict) {
    && GivenBy(e, scene, n, tolerance, Finding(c.kind, c.geometry, c.magnitude, [n.id]))
    && forall x :: x in c.parcelIds <==> x == parcel || x == n.id
  }

  ghost predicate NoFalseAlarm(e: Engine, scene: Scene, b: Basis, d: Db, results: seq<Id>) {
    forall id :: id in results ==> id in d.conflicts && JustifiedBySome(e, scene, b, d.conflicts[id])
  }

  ghost predicate JustifiedBySome(e: Engine, scene: Scene, b: Basis, c: Conflict) {
    exists n :: n in scene.neighbours && Justified(e, scene, n, b.tolerance, b.rows.parcel.id, c)
  }

  // Whatever a neighbour gives is in the list, with the same kind and evidence.
  ghost predicate NoMiss(e: Engine, scene: Scene, b: Basis, d: Db, results: seq<Id>) {
    forall n, f :: n in scene.neighbours && GivenBy(e, scene, n, b.tolerance, f) ==> Listed(d, results, f)
  }

  ghost predicate Listed(d: Db, results: seq<Id>, f: Finding) {
    exists id :: id in results && id in d.conflicts && d.conflicts[id].kind == f.kind && d.conflicts[id].geometry == f.geometry
  }

  // ---- From the report to the conflicts ----

  lemma AlarmsAreJustified(e: Engine, scene: Scene, b: Basis, d: Db, results: seq<Id>)
    requires DistinctKeys(scene.neighbours, RefId) && Told(d, results, b.outcome, b.rows.parcel)
    requires FindingsOf(e, scene.base.shape, scene.compared.shape, scene.neighbours, Metres(b.tolerance)) == Some(b.outcome.findings)
    ensures NoFalseAlarm(e, scene, b, d, results)
  {
    hide FindingsOf, DistinctKeys, Gives, GivesAlike, Metres;
    forall id | id in results ensures id in d.conflicts && JustifiedBySome(e, scene, b, d.conflicts[id]) {
      var i :| 0 <= i < |results| && results[i] == id;
      var f, c := b.outcome.findings[i], d.conflicts[results[i]];
      assert f in b.outcome.findings;
      ReportIsExact(e, scene.base.shape, scene.compared.shape, scene.neighbours, Metres(b.tolerance), f);
      var n :| n in scene.neighbours && Gives(e, scene.base.shape, scene.compared.shape, n, Metres(b.tolerance), f);
      GivenOnce(e, scene.base.shape, scene.compared.shape, n, Metres(b.tolerance), f, f);
      assert f == Finding(c.kind, c.geometry, c.magnitude, [n.id]);
      assert Justified(e, scene, n, b.tolerance, b.rows.parcel.id, c);
    }
  }

  lemma NothingIsMissed(e: Engine, scene: Scene, b: Basis, d: Db, results: seq<Id>)
    requires DistinctKeys(scene.neighbours, RefId) && Told(d, results, b.outcome, b.rows.parcel)
    requires FindingsOf(e, scene.base.shape, scene.compared.shape, scene.neighbours, Metres(b.tolerance)) == Some(b.outcome.findings)
    ensures NoMiss(e, scene, b, d, results)
  {
    hide FindingsOf, DistinctKeys, Gives, GivesAlike, Metres;
    forall n, f | n in scene.neighbours && GivenBy(e, scene, n, b.tolerance, f) ensures Listed(d, results, f) {
      var g, m := Represented(e, scene.base.shape, scene.compared.shape, scene.neighbours, Metres(b.tolerance), n, f);
      var i :| 0 <= i < |b.outcome.findings| && b.outcome.findings[i] == g;
      assert results[i] in results && TellsFinding(d.conflicts[results[i]], g, b.rows.parcel, b.outcome.suggestion);
    }
  }

  // ---- The scene of a stored run ----

  lemma SceneFound(lib: Library, proposal: Proposal, b: Basis) returns (scene: Scene)
    requires Found(lib, b.rows.parcel.boundary, proposal.boundary, b.rows.neighbours, b.tolerance, b.outcome)
    ensures SceneOf(lib, proposal, b, scene)
    ensures FindingsOf(lib.engine, scene.base.shape, scene.compared.shape, scene.neighbours, Metres(b.tolerance)) == Some(b.outcome.findings)
  {
    hide Snapped, FindingsOf, Parsed, References, Neighbours, ShapeSettled, ReadsBack, ListsExactlyMoves;
    ReferencesAreNeighbours(lib, b.rows.neighbours);
    var base, proposed := Parsed(lib.engine, b.rows.parcel.boundary).value, Parsed(lib.engine, proposal.boundary).value;
    var references := References(lib, b.rows.neighbours).value;
    var polygons, tolerance := [base] + PolygonsOf(references), Metres(b.tolerance);
    var result := Snapped(lib.engine, proposed, polygons, tolerance).value;
    scene := Scene(base, proposed, result.polygon, references);
    assert b.tolerance > 0 <==> tolerance > 0.0;
    if b.tolerance == 0 {
      NoToleranceNoSnap(lib.engine, proposed, polygons, tolerance);
    } else {
      SnappingIsRight(lib.engine, proposed, polygons, tolerance);
      if ReadsBack(lib.engine) {
        SnappedPolygonIsRight(lib.engine, proposed, polygons, tolerance, result);
      }
    }
  }

  lemma NeighboursAreDistinct(lib: Library, events: seq<Event>, id: Id, r: Reads)
    requires ReadAt(lib, events, id, r)
    ensures DistinctKeys(Neighbours(lib, r.neighbours), RefId)
  {
    hide After, ActiveNeighbours, Parsed;
    NeighboursAreTheOthers(lib, events[..r.neighboursAt], r.parcel.crs, r.parcel.id);
  }

  ghost predicate TrueToItsScene(lib: Library, d: Db, run: DetectionRun, b: Basis, scene: Scene) {
    && run.proposalId in d.proposals && SceneOf(lib, d.proposals[run.proposalId], b, scene)
    && NoFalseAlarm(lib.engine, scene, b, d, run.resultIds) && NoMiss(lib.engine, scene, b, d, run.resultIds)
  }

  /** In every reachable state, each stored run has read rows the store held, and
      compared with the neighbours among them the boundary its conflicts suggest:
      every conflict it lists is justified by one of these neighbours, and whatever
      one of them gives rise to is listed. */
  lemma StoredConflictsAreReal(lib: Library, events: seq<Event>, k: Id)
    requires k in After(lib, events).db.runs
    ensures var d := After(lib, events).db; var run := d.runs[k];
            && run.proposalId in d.proposals
            && exists b: Basis, scene :: ReadAt(lib, events, d.proposals[run.proposalId].parcelId, b.rows)
                 && BasedOn(lib, d, run, b) && TrueToItsScene(lib, d, run, b, scene)
  {
    hide After, Found, Told, SceneOf, NoFalseAlarm, NoMiss, ReadAt, InputHash, RequestHash, DistinctKeys, FindingsOf;
    StoredRunsTellTheirFindings(lib, events, k);
    var d := After(lib, events).db;
    var run := d.runs[k];
    var b: Basis :| BasedOn(lib, d, run, b) && ReadAt(lib, events, d.proposals[run.proposalId].parcelId, b.rows);
    var scene := SceneFound(lib, d.proposals[run.proposalId], b);
    assert scene.neighbours == Neighbours(lib, b.rows.neighbours) by { SceneHasThem(lib, d.proposals[run.proposalId], b, scene); }
    NeighboursAreDistinct(lib, events, d.proposals[run.proposalId].parcelId, b.rows);
    AlarmsAreJustified(lib.engine, scene, b, d, run.resultIds);
    NothingIsMissed(lib.engine, scene, b, d, run.resultIds);
    assert TrueToItsScene(lib, d, run, b, scene);
  }

  lemma SceneHasThem(lib: Library, proposal: Proposal, b: Basis, scene: Scene)
    requires SceneOf(lib, proposal, b, scene)
    ensures scene.neighbours == Neighbours(lib, b.rows.neighbours)
  {
  }
}
