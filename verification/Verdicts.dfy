/**
 Which requests succeed and which are refused, with which error: decided from
 the rows of the store, the request and the actor, for every kind of request.
 */
module Verdicts {
  import opened Basics
  import Text
  import opened ParcelIds
  import opened Lifecycles
  import opened Polygons
  import opened Snapping
  import opened Topology
  import opened Records
  import opened Analysis
  import opened Transactions
  import opened Protocol
  import opened Growth
  import opened Invariants
  import opened Interleaving
  import opened Refinement
  import opened Idempotency
  import opened ExactlyOnce

  predicate Parses(lib: Library, text: string) {
    Parsed(lib.engine, text).Some?
  }

  // ---- Registering ----

  ghost function NewParcelVerdict(lib: Library, d: Db, n: NewParcel, actor: Actor, ids: Ids): Option<Error> {
    if !lib.crsAccepted(n.crs) || !Parses(lib, n.boundary) then Some(GeometryRejected)
    else if exists k :: k in d.parcels && d.parcels[k].code == Text.TrimSpace(n.code) then Some(StateConflict)
    else if ids.row in d.parcels || Text.Blank(actor.requestId) then Some(Internal)
    else None
  }

  // A stale version is an internal error.
  ghost function PatchVerdict(lib: Library, d: Db, id: Id, patch: ParcelPatch, actor: Actor): Option<Error> {
    if id !in d.parcels then Some(NotFound)
    else if patch.crs.Some? && !lib.crsAccepted(patch.crs.value) then Some(GeometryRejected)
    else if patch.boundary.Some? && !Parses(lib, patch.boundary.value) then Some(GeometryRejected)
    else if patch.version.Some? && patch.version.value != d.parcels[id].version then Some(Internal)
    else if Text.Blank(actor.requestId) then Some(Internal)
    else None
  }

  ghost function NewObservationVerdict(lib: Library, d: Db, n: NewObservation, actor: Actor, ids: Ids): Option<Error> {
    if n.parcelId !in d.parcels then Some(NotFound)
    else if !lib.pointAccepted(n.evidence.point) then Some(GeometryRejected)
    else if exists k :: k in d.observations && d.observations[k].code == Text.TrimSpace(n.code) then Some(Internal)
    else if ids.row in d.observations || Text.Blank(actor.requestId) then Some(Internal)
    else None
  }

  ghost function NewProposalVerdict(lib: Library, d: Db, n: NewProposal, actor: Actor, ids: Ids): Option<Error> {
    if n.parcelId !in d.parcels then Some(NotFound)
    else if n.baseVersion != d.parcels[n.parcelId].version then Some(StateConflict)
    else if !Parses(lib, n.boundary) then Some(GeometryRejected)
    else if exists o :: o in n.observationIds && !(o in d.observations && d.observations[o].parcelId == n.parcelId) then Some(InvalidInput)
    else if ids.row in d.proposals || Text.Blank(actor.requestId) then Some(Internal)
    else None
  }

  // ---- Transitions ----

  ghost function ObservationMoveVerdict(d: Db, id: Id, m: ObservationMove, actor: Actor): Option<Error> {
    if id !in d.observations then Some(NotFound)
    else
      var row := d.observations[id];
      if row.version != m.version || (row.state, m.to) !in OBSERVATION_STEPS then Some(StateConflict)
      else if actor.role != Surveyor && actor.role != GisAnalyst && actor.role != Admin then Some(Forbidden)
      else if m.to != Superseded && m.replacement.Some? then Some(InvalidInput)
      else if m.to == Superseded && (m.replacement.None? || m.replacement.value == id) then Some(InvalidInput)
      else if m.to == Superseded && m.replacement.value !in d.observations then Some(NotFound)
      else if m.to == Superseded && (d.observations[m.replacement.value].parcelId != row.parcelId
                                     || d.observations[m.replacement.value].state == Superseded) then Some(StateConflict)
      else if Text.Blank(actor.requestId) then Some(StateConflict)
      else None
  }

  // No version is compared.
  ghost function ProposalMoveVerdict(d: Db, id: Id, m: ProposalMove, actor: Actor): Option<Error> {
    if id !in d.proposals then Some(NotFound)
    else if (d.proposals[id].state, m.to) !in PROPOSAL_STEPS then Some(StateConflict)
    else if m.to in AUTHORING && actor.id != d.proposals[id].createdBy && actor.role != Admin then Some(Forbidden)
    else if m.to in REVIEWING && (actor.id == d.proposals[id].createdBy || (actor.role != Reviewer && actor.role != Admin)) then Some(Forbidden)
    else if Text.Blank(actor.requestId) then Some(StateConflict)
    else None
  }

  ghost function ConflictMoveVerdict(d: Db, id: Id, to: ConflictState, actor: Actor): Option<Error> {
    if id !in d.conflicts then Some(NotFound)
    else if (d.conflicts[id].state, to) !in CONFLICT_STEPS || Text.Blank(actor.requestId) then Some(StateConflict)
    else None
  }

  ghost function ApplyVerdict(lib: Library, d: Db, id: Id, actor: Actor, ids: Ids): Option<Error> {
    if actor.role != Reviewer && actor.role != Admin then Some(Forbidden)
    else if id !in d.conflicts then Some(NotFound)
    else if d.conflicts[id].state != ResolutionProposed || d.conflicts[id].suggestion == "" then Some(StateConflict)
    else if !Parses(lib, d.conflicts[id].suggestion) then Some(Internal)
    else if ids.row in d.proposals || Text.Blank(actor.requestId) then Some(Internal)
    else None
  }

  // ---- Detection ----

  // The tolerance a request asks for.
  ghost function Asked(d: Db, q: Request): Micrometres
    requires q.DetectRequest? && q.proposalId in d.proposals
  {
    if q.tolerance != 0 then q.tolerance else d.proposals[q.proposalId].tolerance
  }

  // A new run: parse, snap, compare, and store under free IDs.
  ghost function NewRunVerdict(lib: Library, d: Db, q: Request, actor: Actor, ids: Ids): Option<Error>
    requires q.DetectRequest? && q.proposalId in d.proposals && d.proposals[q.proposalId].parcelId in d.parcels
  {
    var proposal, parcel := d.proposals[q.proposalId], d.parcels[d.proposals[q.proposalId].parcelId];
    var ns := ActiveNeighbours(d, parcel.crs, parcel.id);
    if !Parses(lib, parcel.boundary) || !Parses(lib, proposal.boundary) then Some(GeometryRejected)
    else if exists n :: n in ns && !Parses(lib, n.boundary) then Some(Internal)
    else
      var base, candidate, references := Parsed(lib.engine, parcel.boundary).value, Parsed(lib.engine, proposal.boundary).value, Neighbours(lib, ns);
      var tolerance := Metres(Asked(d, q));
      var snapped := Snapped(lib.engine, candidate, [base] + PolygonsOf(references), tolerance);
      if snapped.None? then Some(GeometryRejected)
      else
        var findings := FindingsOf(lib.engine, base.shape, snapped.value.polygon.shape, references, tolerance);
        if findings.None? || ids.row in d.runs || Text.Blank(actor.requestId) || !FreeIds(d, ids.items, |findings.value|) then Some(Internal)
        else None
  }

  // The neighbours as the geometry package sees them.
  function Neighbours(lib: Library, ns: seq<Parcel>): seq<ParcelReference> {
    seq(|ns|, i requires 0 <= i < |ns| =>
      ParcelReference(ns[i].id, match Parsed(lib.engine, ns[i].boundary) case None => Polygon([], 0.0, Shape([])) case Some(polygon) => polygon))
  }

  ghost predicate FreeIds(d: Db, ids: seq<Id>, count: nat) {
    count <= |ids| && Distinct(ids[..count]) && forall i :: 0 <= i < count ==> ids[i] !in d.conflicts
  }

  ghost function DetectVerdict(lib: Library, d: Db, q: Request, actor: Actor, ids: Ids): Option<Error>
    requires q.DetectRequest? && (q.proposalId in d.proposals ==> d.proposals[q.proposalId].parcelId in d.parcels)
  {
    var key := Text.TrimSpace(q.key);
    if Text.Utf8Length(key) == 0 || Text.Utf8Length(key) > 128 then Some(InvalidInput)
    else if q.proposalId !in d.proposals then Some(NotFound)
    else if exists run :: Holds(d, run) && run.actorId == actor.id && run.key == key then
      // Used before: replayed for the same request hash, refused for another.
      if exists run :: Holds(d, run) && run.actorId == actor.id && run.key == key
           && run.requestHash != RequestHash(lib, q.proposalId, Asked(d, q)) then Some(StateConflict) else None
    else NewRunVerdict(lib, d, q, actor, ids)
  }

  // ---- What the service answers ----

  ghost predicate Judged(d: Db, verdict: Option<Error>, end: (Db, Reply)) {
    match verdict
    case Some(error) => end == (d, Failure(error))
    case None => !end.1.Failure?
  }

  lemma RegistrationJudged(lib: Library, d: Db, q: Request, actor: Actor, ids: Ids)
    requires q.CreateParcelRequest? || q.ImportObservationRequest?
    ensures Judged(d, if q.CreateParcelRequest? then NewParcelVerdict(lib, d, q.newParcel, actor, ids)
                      else NewObservationVerdict(lib, d, q.newObservation, actor, ids), Serve(lib, d, q, actor, ids))
  {
    hide RunAlone, Parsed, Text.TrimSpace, Text.Blank;
    ServedInOneLookUp(lib, d, q, actor, ids);
  }

  lemma PatchJudged(lib: Library, d: Db, id: Id, patch: ParcelPatch, actor: Actor, ids: Ids)
    requires id in d.parcels ==> d.parcels[id].id == id
    ensures Judged(d, PatchVerdict(lib, d, id, patch, actor), Serve(lib, d, UpdateParcelRequest(id, patch), actor, ids))
  {
    hide RunAlone, Parsed, Text.TrimSpace, Text.Blank;
    ServedInOneLookUp(lib, d, UpdateParcelRequest(id, patch), actor, ids);
  }

  lemma MovesJudged(lib: Library, d: Db, q: Request, actor: Actor, ids: Ids)
    requires q.MoveProposalRequest? || q.MoveConflictRequest?
    requires (q.id in d.proposals ==> d.proposals[q.id].id == q.id) && (q.id in d.conflicts ==> d.conflicts[q.id].id == q.id)
    ensures Judged(d, if q.MoveProposalRequest? then ProposalMoveVerdict(d, q.id, q.proposalMove, actor)
                      else ConflictMoveVerdict(d, q.id, q.conflictTo, actor), Serve(lib, d, q, actor, ids))
  {
    hide RunAlone, Text.Blank;
    ServedInOneLookUp(lib, d, q, actor, ids);
  }

  lemma ObservationMoveJudged(lib: Library, d: Db, id: Id, m: ObservationMove, actor: Actor, ids: Ids)
    requires id in d.observations ==> d.observations[id].id == id
    ensures Judged(d, ObservationMoveVerdict(d, id, m, actor), Serve(lib, d, MoveObservationRequest(id, m), actor, ids))
  {
    hide RunAlone, Text.Blank, Text.TrimSpace;
    var q := MoveObservationRequest(id, m);
    var mid := Started(lib, d, q, actor);
    if mid.ReadReplacement? {
      ServedInTwoLookUps(lib, d, q, actor, ids, mid);
    } else {
      ServedInOneLookUp(lib, d, q, actor, ids);
    }
  }

  // Checking the evidence one by one stops at the first foreign observation.
  lemma {:induction false} EvidenceJudged(lib: Library, d: Db, c: Client, parcel: Parcel, n: NewProposal, next: nat, ids: Ids)
    requires c.stage == ReadEvidence(parcel, n, next)
    requires exists i :: next <= i < |n.observationIds| && !(n.observationIds[i] in d.observations && d.observations[n.observationIds[i]].parcelId == n.parcelId)
    ensures RunAlone(lib, d, c, ids) == (d, c.(stage := Fail(InvalidInput)))
    decreases |n.observationIds| - next
  {
    hide RunAlone;
    RunReading(lib, d, c, ids);
    var o := n.observationIds[next];
    if o in d.observations && d.observations[o].parcelId == n.parcelId {
      EvidenceJudged(lib, d, c.(stage := ReadEvidence(parcel, n, next + 1)), parcel, n, next + 1, ids);
    }
  }

  lemma NewProposalJudged(lib: Library, d: Db, n: NewProposal, actor: Actor, ids: Ids)
    ensures Judged(d, NewProposalVerdict(lib, d, n, actor, ids), Serve(lib, d, CreateProposalRequest(n), actor, ids))
  {
    hide RunAlone, Parsed, Text.Blank, Text.TrimSpace, CreatedProposal;
    var q := CreateProposalRequest(n);
    var mid := Started(lib, d, q, actor);
    if mid.Finished? {
      ServedInOneLookUp(lib, d, q, actor, ids);
    } else {
      var parcel := d.parcels[n.parcelId];
      RunReading(lib, d, Client(q, actor, Start), ids);
      if o :| o in n.observationIds && !(o in d.observations && d.observations[o].parcelId == n.parcelId) {
        var i :| 0 <= i < |n.observationIds| && n.observationIds[i] == o;
        EvidenceJudged(lib, d, Client(q, actor, mid), parcel, n, 0, ids);
      } else {
        EvidencePasses(lib, d, Client(q, actor, mid), parcel, n, 0, ids);
        RunCommit(lib, d, Client(q, actor, Commit(InsertProposal(CreatedProposal(lib, parcel, n, actor)))), ids);
      }
    }
  }

  lemma ApplyJudged(lib: Library, d: Db, id: Id, rationale: string, actor: Actor, ids: Ids)
    requires id in d.conflicts ==> d.conflicts[id].id == id && d.conflicts[id].proposalId in d.proposals
    requires forall p :: p in d.proposals ==> d.proposals[p].parcelId in d.parcels
    ensures Judged(d, ApplyVerdict(lib, d, id, actor, ids), Serve(lib, d, ApplyRequest(id, rationale), actor, ids))
  {
    hide RunAlone, Parsed, Text.Blank, Text.TrimSpace, DerivedProposal;
    var q := ApplyRequest(id, rationale);
    var mid := Started(lib, d, q, actor);
    if mid.Finished? {
      ServedInOneLookUp(lib, d, q, actor, ids);
    } else {
      var conflict := d.conflicts[id];
      var source := d.proposals[conflict.proposalId];
      if conflict.suggestion == "" || Parsed(lib.engine, conflict.suggestion).None? {
        ServedInTwoLookUps(lib, d, q, actor, ids, mid);
      } else {
        ApplyServed(lib, d, q, actor, ids, conflict, source, d.parcels[source.parcelId]);
      }
    }
  }

  // ---- Detection ----

  lemma {:induction false} ReferencesAreNeighbours(lib: Library, ns: seq<Parcel>)
    ensures References(lib, ns).Some? <==> forall n :: n in ns ==> Parses(lib, n.boundary)
    ensures References(lib, ns).Some? ==> References(lib, ns).value == Neighbours(lib, ns)
  {
    hide Parsed;
    if ns != [] {
      var front, last := ns[..|ns| - 1], ns[|ns| - 1];
      ReferencesAreNeighbours(lib, front);
      assert ns == front + [last];
      assert last in ns;
      if References(lib, ns).Some? {
        assert Neighbours(lib, ns) == Neighbours(lib, front) + [References(lib, ns).value[|ns| - 1]];
      }
    }
  }

  // Inserting the conflicts succeeds exactly when the IDs are free and the request ID is not blank.
  lemma {:induction false} InsertingNeedsFreeIds(d: Db, items: seq<Conflict>, ids: seq<Id>, actor: Actor, parcelId: Id)
    requires !Text.Blank(actor.requestId)
    ensures InsertConflicts(d, items, ids, actor, parcelId).Some? <==> FreeIds(d, ids, |items|)
    ensures FreeIds(d, ids, |items|) ==>
              forall k :: k in InsertConflicts(d, items, ids, actor, parcelId).value.conflicts <==> k in d.conflicts || k in ids[..|items|]
  {
    hide Text.Blank;
    if items != [] {
      var n := |items| - 1;
      InsertingNeedsFreeIds(d, items[..n], ids, actor, parcelId);
      if n < |ids| {
        assert ids[..n + 1] == ids[..n] + [ids[n]];
      }
      if FreeIds(d, ids, n) && n < |ids| && ids[n] in ids[..n] {
        var i :| 0 <= i < n && ids[i] == ids[n];
        assert ids[..n + 1][i] == ids[..n + 1][n];
      }
    }
  }

  lemma RecordingVerdict(d: Db, items: seq<Conflict>, run: DetectionRun, parcelId: Id, actor: Actor, ids: Ids)
    requires !RunKeyTaken(d, run.actorId, run.key)
    ensures Execute(d, RecordRun(items, run, parcelId), actor, ids).Ok?
      <==> ids.row !in d.runs && !Text.Blank(actor.requestId) && FreeIds(d, ids.items, |items|)
  {
    hide InsertConflicts, FreeIds, Text.Blank;
    InsertingLeavesRuns(d, items, ids.items, actor, parcelId);
    if !Text.Blank(actor.requestId) {
      InsertingNeedsFreeIds(d, items, ids.items, actor, parcelId);
    }
  }

  // The analysis fails with the errors of the verdict.
  lemma AnalysisVerdict(lib: Library, base: string, proposed: string, ns: seq<Parcel>, tolerance: Micrometres)
    ensures var result, b, candidate := Compute(lib, base, proposed, ns, tolerance), Parsed(lib.engine, base), Parsed(lib.engine, proposed);
      if b.None? || candidate.None? then result == Err(GeometryRejected)
      else if exists n :: n in ns && !Parses(lib, n.boundary) then result == Err(Internal)
      else
        var references := Neighbours(lib, ns);
        var snapped := Snapped(lib.engine, candidate.value, [b.value] + PolygonsOf(references), Metres(tolerance));
        if snapped.None? then result == Err(GeometryRejected)
        else
          var findings := FindingsOf(lib.engine, b.value.shape, snapped.value.polygon.shape, references, Metres(tolerance));
          if findings.None? then result == Err(Internal) else result == Ok(Outcome(snapped.value.suggested, findings.value))
  {
    hide Parsed, Snapped, FindingsOf, References;
    ReferencesAreNeighbours(lib, ns);
  }

  // A detection whose recording fails while its key is free ends as an internal error.
  lemma FreeKeyLoses(lib: Library, d: Db, c: Client, ids: Ids)
    requires RunsOk(d) && c.stage.Commit? && c.stage.tx.RecordRun? && Execute(d, c.stage.tx, c.actor, ids).Err?
    requires !RunKeyTaken(d, c.actor.id, c.stage.tx.run.key)
    ensures RunAlone(lib, d, c, ids) == (d, c.(stage := Fail(Internal)))
  {
    hide RunAlone, Execute, RunOf, RunsOk, RunKeyTaken;
    LosingRun(lib, d, c, ids);
    RunOfFinds(d, c.actor.id, c.stage.tx.run.key);
    RunReading(lib, d, c.(stage := FindRunAgain(c.stage.tx.run.requestHash, c.stage.tx.run.key)), ids);
  }

  lemma RecordedJudged(lib: Library, d: Db, c: Client, ids: Ids, items: seq<Conflict>, run: DetectionRun, parcelId: Id)
    requires RunsOk(d) && c.stage == Commit(RecordRun(items, run, parcelId))
    requires run.actorId == c.actor.id && !RunKeyTaken(d, run.actorId, run.key)
    ensures var end := RunAlone(lib, d, c, ids);
            Judged(d, if ids.row in d.runs || Text.Blank(c.actor.requestId) || !FreeIds(d, ids.items, |items|) then Some(Internal) else None,
                   (end.0, end.1.stage.reply))
  {
    hide RunAlone, Execute, RunsOk, RunKeyTaken, FreeIds, Text.Blank;
    RecordingVerdict(d, items, run, parcelId, c.actor, ids);
    if Execute(d, c.stage.tx, c.actor, ids).Ok? {
      RunCommit(lib, d, c, ids);
      RunsWritten(d, c.stage.tx, c.actor, ids);
    } else {
      FreeKeyLoses(lib, d, c, ids);
    }
  }

  // What a new run is about to do: record as many conflicts as there are findings, or fail.
  lemma NewRunStage(lib: Library, d: Db, q: Request, actor: Actor)
    requires q.DetectRequest? && q.proposalId in d.proposals && d.proposals[q.proposalId].parcelId in d.parcels
    ensures var proposal, parcel := d.proposals[q.proposalId], d.parcels[d.proposals[q.proposalId].parcelId];
            var stage := RecordedNow(lib, d, q, actor);
            && stage.Some?
            && match Compute(lib, parcel.boundary, proposal.boundary, ActiveNeighbours(d, parcel.crs, parcel.id), Asked(d, q))
               case Err(error) => stage.value == Fail(error)
               case Ok(outcome) => stage.value.Commit? && AsksToRecord(stage.value.tx, q, actor, |outcome.findings|)
  {
    hide Compute, InputHash, RequestHash, ActiveNeighbours, NewConflict, Text.TrimSpace;
  }

  ghost predicate AsksToRecord(tx: Tx, q: Request, actor: Actor, count: nat)
    requires q.DetectRequest?
  {
    tx.RecordRun? && |tx.items| == count && tx.run.actorId == actor.id && tx.run.key == Text.TrimSpace(q.key)
  }

  // The verdict on a new run, from the outcome of its analysis.
  ghost function OutcomeVerdict(d: Db, result: Result<Analysis.Outcome, Error>, actor: Actor, ids: Ids): Option<Error> {
    match result
    case Err(error) => Some(error)
    case Ok(outcome) =>
      if ids.row in d.runs || Text.Blank(actor.requestId) || !FreeIds(d, ids.items, |outcome.findings|) then Some(Internal) else None
  }

  lemma NewRunOutcome(lib: Library, d: Db, q: Request, actor: Actor, ids: Ids)
    requires q.DetectRequest? && q.proposalId in d.proposals && d.proposals[q.proposalId].parcelId in d.parcels
    ensures var proposal, parcel := d.proposals[q.proposalId], d.parcels[d.proposals[q.proposalId].parcelId];
            var result := Compute(lib, parcel.boundary, proposal.boundary, ActiveNeighbours(d, parcel.crs, parcel.id), Asked(d, q));
            NewRunVerdict(lib, d, q, actor, ids) == OutcomeVerdict(d, result, actor, ids)
  {
    hide Parsed, Compute, Snapped, FindingsOf, ActiveNeighbours, Neighbours, FreeIds, Text.Blank;
    var proposal, parcel := d.proposals[q.proposalId], d.parcels[d.proposals[q.proposalId].parcelId];
    AnalysisVerdict(lib, parcel.boundary, proposal.boundary, ActiveNeighbours(d, parcel.crs, parcel.id), Asked(d, q));
  }

  lemma NewRunJudged(lib: Library, d: Db, q: Request, actor: Actor, ids: Ids)
    requires StoreOk(lib, d) && q.DetectRequest? && KeyAccepted(q.key) && !RunKeyTaken(d, actor.id, Text.TrimSpace(q.key))
    requires q.proposalId in d.proposals && d.proposals[q.proposalId].parcelId in d.parcels
    ensures Judged(d, NewRunVerdict(lib, d, q, actor, ids), Serve(lib, d, q, actor, ids))
  {
    hide StoreOk, RunsOk, RunAlone, Serve, RunKeyTaken, KeyAccepted, FreeIds, Text.Blank, Text.TrimSpace;
    hide Compute, ActiveNeighbours, RecordedNow, NewRunVerdict;
    assert RunsOk(d) by { OpenStore(lib, d); }
    NewRunStage(lib, d, q, actor);
    NewRunOutcome(lib, d, q, actor, ids);
    var stage := RecordedNow(lib, d, q, actor).value;
    DetectionServed(lib, d, q, actor, ids);
    match stage
    case Commit(tx) => RecordedJudged(lib, d, Client(q, actor, stage), ids, tx.items, tx.run, tx.parcelId);
    case _ => DecidedIsTheRun(lib, d, Client(q, actor, stage), ids);
  }

  lemma UsedKeyJudged(lib: Library, d: Db, q: Request, actor: Actor, ids: Ids)
    requires StoreOk(lib, d) && q.DetectRequest? && KeyAccepted(q.key) && q.proposalId in d.proposals
    requires d.proposals[q.proposalId].parcelId in d.parcels && RunKeyTaken(d, actor.id, Text.TrimSpace(q.key))
    ensures Judged(d, DetectVerdict(lib, d, q, actor, ids), Serve(lib, d, q, actor, ids))
  {
    hide StoreOk, RunsOk, Serve, RequestHash, Text.TrimSpace, Text.Utf8Length, NewRunVerdict;
    assert RunsOk(d) by { OpenStore(lib, d); }
    AskerReports(lib, d, q, actor, ids);
    var end := Serve(lib, d, q, actor, ids);
    var run :| Holds(d, run) && RunFor(run, actor, q) && AnsweredBy(run, WantedHash(lib, d, q), end.1);
    OnlyRun(d, run);
    AnswerJudged(lib, d, q, actor, ids, run, end);
  }

  lemma AnswerJudged(lib: Library, d: Db, q: Request, actor: Actor, ids: Ids, run: DetectionRun, end: (Db, Reply))
    requires q.DetectRequest? && KeyAccepted(q.key) && q.proposalId in d.proposals && d.proposals[q.proposalId].parcelId in d.parcels
    requires Holds(d, run) && RunFor(run, actor, q) && AnsweredBy(run, WantedHash(lib, d, q), end.1) && end.0 == d
    requires forall other :: Holds(d, other) && SameKey(other, run) ==> other == run
    ensures Judged(d, DetectVerdict(lib, d, q, actor, ids), end)
  {
    hide RequestHash, Text.TrimSpace, Text.Utf8Length, NewRunVerdict;
  }

  lemma OnlyRun(d: Db, run: DetectionRun)
    requires RunsOk(d) && Holds(d, run)
    ensures forall other :: Holds(d, other) && SameKey(other, run) ==> other == run
  {
  }

  lemma DetectionJudged(lib: Library, d: Db, q: Request, actor: Actor, ids: Ids)
    requires StoreOk(lib, d) && q.DetectRequest? && (q.proposalId in d.proposals ==> d.proposals[q.proposalId].parcelId in d.parcels)
    ensures Judged(d, DetectVerdict(lib, d, q, actor, ids), Serve(lib, d, q, actor, ids))
  {
    if !KeyAccepted(q.key) || q.proposalId !in d.proposals {
      hide StoreOk, RunAlone, Text.TrimSpace, Text.Utf8Length, RequestHash, NewRunVerdict;
      ServedInOneLookUp(lib, d, q, actor, ids);
    } else {
      RunsNumbered(lib, d);
      hide StoreOk, Serve, NewRunVerdict, RequestHash, Judged, Text.TrimSpace, Text.Utf8Length;
      if RunKeyTaken(d, actor.id, Text.TrimSpace(q.key)) {
        UsedKeyJudged(lib, d, q, actor, ids);
      } else {
        NewRunJudged(lib, d, q, actor, ids);
      }
    }
  }

  lemma RunsNumbered(lib: Library, d: Db)
    requires StoreOk(lib, d)
    ensures forall k :: k in d.runs ==> Holds(d, d.runs[k])
  {
    OpenStore(lib, d);
    assert forall k :: k in d.runs ==> RunOk(d, k);
  }

  // ---- Every request ----

  ghost function Verdict(lib: Library, d: Db, q: Request, actor: Actor, ids: Ids): Option<Error>
    requires q.DetectRequest? && q.proposalId in d.proposals ==> d.proposals[q.proposalId].parcelId in d.parcels
  {
    match q
    case CreateParcelRequest(n) => NewParcelVerdict(lib, d, n, actor, ids)
    case UpdateParcelRequest(id, patch) => PatchVerdict(lib, d, id, patch, actor)
    case ImportObservationRequest(n) => NewObservationVerdict(lib, d, n, actor, ids)
    case MoveObservationRequest(id, m) => ObservationMoveVerdict(d, id, m, actor)
    case CreateProposalRequest(n) => NewProposalVerdict(lib, d, n, actor, ids)
    case MoveProposalRequest(id, m) => ProposalMoveVerdict(d, id, m, actor)
    case MoveConflictRequest(id, to) => ConflictMoveVerdict(d, id, to, actor)
    case ApplyRequest(id, _) => ApplyVerdict(lib, d, id, actor, ids)
    case DetectRequest(_, _, _) => DetectVerdict(lib, d, q, actor, ids)
  }

  lemma RowsAreTied(lib: Library, d: Db)
    requires StoreOk(lib, d)
    ensures forall k :: k in d.parcels ==> d.parcels[k].id == k
    ensures forall k :: k in d.observations ==> d.observations[k].id == k
    ensures forall k :: k in d.proposals ==> d.proposals[k].id == k && d.proposals[k].parcelId in d.parcels
    ensures forall k :: k in d.conflicts ==> d.conflicts[k].id == k && d.conflicts[k].proposalId in d.proposals
  {
    OpenStore(lib, d);
    hide StoreOk, ParcelsOk, ObservationsOk, ProposalsOk, ConflictsOk, LinksOk;
    forall k | k in d.parcels ensures d.parcels[k].id == k {
      CurrentParcelIsKnown(d, k);
    }
    forall k ensures k in d.observations ==> d.observations[k].id == k
      ensures k in d.proposals ==> d.proposals[k].id == k
      ensures k in d.conflicts ==> d.conflicts[k].id == k
    {
      RowIds(d, k);
    }
    forall k | k in d.proposals ensures d.proposals[k].parcelId in d.parcels {
      ParcelsOfProposals(lib, d, k);
    }
    forall k | k in d.conflicts ensures d.conflicts[k].proposalId in d.proposals {
      var run :| run in d.runs && k in d.runs[run].resultIds;
      assert RunOk(d, run);
    }
  }

  /** In every reachable state a request served alone is refused exactly by its
      verdict, with that error and without a change of the store. */
  lemma RequestsAreJudged(lib: Library, events: seq<Event>, q: Request, actor: Actor, ids: Ids)
    ensures var d := After(lib, events).db;
            && (q.DetectRequest? && q.proposalId in d.proposals ==> d.proposals[q.proposalId].parcelId in d.parcels)
            && Judged(d, Verdict(lib, d, q, actor, ids), Serve(lib, d, q, actor, ids))
  {
    hide After, StoreOk, Serve, Judged;
    hide NewParcelVerdict, PatchVerdict, NewObservationVerdict, NewProposalVerdict, ObservationMoveVerdict, ProposalMoveVerdict,
      ConflictMoveVerdict, ApplyVerdict, DetectVerdict;
    AlwaysOk(lib, events);
    var d := After(lib, events).db;
    RowsAreTied(lib, d);
    match q
    case CreateParcelRequest(_) => RegistrationJudged(lib, d, q, actor, ids);
    case UpdateParcelRequest(id, patch) => PatchJudged(lib, d, id, patch, actor, ids);
    case ImportObservationRequest(_) => RegistrationJudged(lib, d, q, actor, ids);
    case MoveObservationRequest(id, m) => ObservationMoveJudged(lib, d, id, m, actor, ids);
    case CreateProposalRequest(n) => NewProposalJudged(lib, d, n, actor, ids);
    case MoveProposalRequest(_, _) => MovesJudged(lib, d, q, actor, ids);
    case MoveConflictRequest(_, _) => MovesJudged(lib, d, q, actor, ids);
    case ApplyRequest(id, rationale) => ApplyJudged(lib, d, id, rationale, actor, ids);
    case DetectRequest(_, _, _) => DetectionJudged(lib, d, q, actor, ids);
  }
}
