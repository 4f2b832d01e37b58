/**
 Conflict detection as the service runs it: look the key up, analyse, record
 everything in one transaction, and replay the winner's run when that fails.
 */
module Detection {
  import opened Basics
  import opened Text
  import opened Framing
  import opened Sorting
  import opened ParcelIds
  import opened Lifecycles
  import opened Polygons
  import opened Snapping
  import opened Topology
  import opened Records
  import opened Analysis
  import opened Transactions
  import Protocol
  import opened Refinement
  import opened ExactlyOnce
  import opened Repositories

  lemma TextHasLength(s: string)
    ensures Utf8Length(s) >= 1 <==> s != ""
  {
  }

  lemma {:induction false} RefusedItem(d: Db, items: seq<Conflict>, ids: seq<Id>, actor: Actor, parcelId: Id, i: nat)
    requires i <= |items| && InsertConflicts(d, items[..i], ids, actor, parcelId).None?
    ensures InsertConflicts(d, items, ids, actor, parcelId).None?
    decreases |items|
  {
    if i == |items| {
      assert items[..i] == items;
    } else {
      assert items[..|items| - 1][..i] == items[..i];
      RefusedItem(d, items[..|items| - 1], ids, actor, parcelId, i);
    }
  }

  // The findings of a list that was sorted before it was passed on.
  lemma SortingTwice(e: Engine, base: Shape, candidate: Shape, ns: seq<ParcelReference>, tolerance: real)
    ensures FindingsOf(e, base, candidate, SortedBy(ns, RefId), tolerance) == FindingsOf(e, base, candidate, ns, tolerance)
  {
    SortedByProperties(ns, RefId);
    OrderedIsSorted(SortedBy(ns, RefId), RefId);
  }

  class DetectionService {
    const store: Store
    const lib: Library

    constructor (store: Store, lib: Library)
      ensures this.store == store && this.lib == lib
    {
      this.store, this.lib := store, lib;
    }

    method DetectConflicts(proposalId: Id, requested: Micrometres, idempotencyKey: string, actor: Actor, ids: Ids) returns (reply: Reply)
      requires store.Valid()
      modifies store
      ensures store.Valid()
      ensures (store.Contents(), reply)
           == Protocol.Serve(lib, old(store.Contents()), DetectRequest(proposalId, requested, idempotencyKey), actor, ids)
    {
      hide Execute, Protocol.RunAlone, Compute, InputHash, NewConflicts, Protocol.Replayed, Protocol.RunOf, Protocol.ActiveNeighbours;
      ghost var d, c := store.Contents(), Protocol.Client(DetectRequest(proposalId, requested, idempotencyKey), actor, Protocol.Start);
      RunReading(lib, d, c, ids);
      var key := TrimSpace(idempotencyKey);
      TextHasLength(key);
      if key == "" || Utf8Length(key) > 128 { return Failure(InvalidInput); }
      if proposalId !in store.proposals { return Failure(NotFound); }
      var proposal := store.proposals[proposalId];
      var tolerance := requested;
      if tolerance == 0 { tolerance := proposal.tolerance; }
      var requestHash := Hash([Decimal(proposalId), SixDecimals(tolerance)], lib.digest);
      RunReading(lib, d, c.(stage := Protocol.FindRun(proposal, tolerance, key)), ids);
      var existing := store.FindRunByActorKey(actor.id, key);
      if existing.Some? {
        reply := ReplayDetectionRun(existing.value, requestHash, c, Protocol.ReadDetectionParcel(proposal, tolerance, key), ids);
        return;
      }
      reply := RunDetection(proposal, tolerance, key, requestHash, actor, c, ids);
    }

    // A key that is still free: read the parcel and its neighbours, analyse, and commit.
    method RunDetection(proposal: Proposal, tolerance: Micrometres, key: string, requestHash: string, actor: Actor, ghost c: Protocol.Client, ids: Ids)
      returns (reply: Reply)
      requires store.Valid() && c.actor == actor && requestHash == RequestHash(lib, proposal.id, tolerance)
      modifies store
      ensures store.Valid()
      ensures var end := Protocol.RunAlone(lib, old(store.Contents()), c.(stage := Protocol.ReadDetectionParcel(proposal, tolerance, key)), ids);
              end.0 == store.Contents() && end.1.stage.reply == reply
    {
      hide Execute, Protocol.RunAlone, Compute, InputHash, RequestHash, NewConflicts, Protocol.ActiveNeighbours;
      ghost var d := store.Contents();
      RunReading(lib, d, c.(stage := Protocol.ReadDetectionParcel(proposal, tolerance, key)), ids);
      if proposal.parcelId !in store.parcels { return Failure(NotFound); }
      var parcel := store.parcels[proposal.parcelId];
      RunReading(lib, d, c.(stage := Protocol.ReadNeighbours(proposal, parcel, tolerance, key)), ids);
      var neighbours := store.ListActiveByCoordinateSystem(parcel.crs, parcel.id);
      var outcome := Analyse(parcel, proposal, neighbours, tolerance);
      if outcome.Err? { return Failure(outcome.error); }
      var inputHash := HashInput(parcel, proposal, neighbours, tolerance);
      var items := BuildConflicts(parcel, proposal, inputHash, outcome.value);
      var run := DetectionRun(0, proposal.id, actor.id, key, requestHash, inputHash, []);
      reply := CommitDetection(items, run, parcel.id, actor, c, ids);
    }

    /** From the transaction on, whatever other requests have done to the store by
        then: record the run, or report the one that took the key. */
    method CommitDetection(items: seq<Conflict>, run: DetectionRun, parcelId: Id, actor: Actor, ghost c: Protocol.Client, ids: Ids)
      returns (reply: Reply)
      requires store.Valid() && run.actorId == actor.id && c.actor == actor
      modifies store
      ensures store.Valid()
      ensures var end := Protocol.RunAlone(lib, old(store.Contents()), c.(stage := Protocol.Commit(RecordRun(items, run, parcelId))), ids);
              end.0 == store.Contents() && end.1.stage.reply == reply
    {
      hide Execute, Protocol.RunAlone, Protocol.RunOf;
      ghost var d, pending := store.Contents(), c.(stage := Protocol.Commit(RecordRun(items, run, parcelId)));
      RunCommit(lib, d, pending, ids);
      var saved := store.Contents();
      var ok, stored := RecordDetection(items, run, parcelId, actor, ids);
      if ok { return ConflictsReply(stored); }
      store.Rollback(saved);
      LosingRun(lib, d, pending, ids);
      RunReading(lib, d, c.(stage := Protocol.FindRunAgain(run.requestHash, run.key)), ids);
      var existing := store.FindRunByActorKey(actor.id, run.key);
      if existing.None? { return Failure(Internal); }
      reply := ReplayDetectionRun(existing.value, run.requestHash, c, Protocol.Fail(Internal), ids);
    }

    // The stored answer, if it was given to the same request.
    method ReplayDetectionRun(run: DetectionRun, requestHash: string, ghost c: Protocol.Client, ghost otherwise: Protocol.Stage, ghost ids: Ids)
      returns (reply: Reply)
      ensures var d := store.Contents();
              var end := Protocol.RunAlone(lib, d, c.(stage := Protocol.AfterFindingRun(Some(run), requestHash, otherwise)), ids);
              end.0 == d && end.1.stage.reply == reply
    {
      if run.requestHash != requestHash { return Failure(StateConflict); }
      RunReading(lib, store.Contents(), c.(stage := Protocol.ReplayRun(run)), ids);
      var items := store.ListConflictsByIDs(run.resultIds);
      return if items.None? then Failure(Internal) else ConflictsReply(items.value);
    }

    // ---- The analysis ----

    method Analyse(parcel: Parcel, proposal: Proposal, neighbours: seq<Parcel>, tolerance: Micrometres) returns (outcome: Result<Analysis.Outcome, Error>)
      ensures outcome == Compute(lib, parcel.boundary, proposal.boundary, neighbours, tolerance)
    {
      var base := ParsePolygon(lib.engine, parcel.boundary);
      if base.None? { return Err(GeometryRejected); }
      var proposed := ParsePolygon(lib.engine, proposal.boundary);
      if proposed.None? { return Err(GeometryRejected); }
      var parsed := ParseNeighbours(neighbours);
      if parsed.None? { return Err(Internal); }
      var references := [base.value] + PolygonsOf(parsed.value);
      var sorted := new ParcelReference[|parsed.value|](i requires 0 <= i < |parsed.value| => parsed.value[i]);
      assert sorted[..] == parsed.value;
      Sort(sorted, RefId);
      var snapped := SnapToReferences(lib.engine, proposed.value, references, Metres(tolerance));
      if snapped.None? { return Err(GeometryRejected); }
      var findings := DetectTopology(lib.engine, base.value.shape, snapped.value.polygon.shape, sorted, Metres(tolerance));
      SortingTwice(lib.engine, base.value.shape, snapped.value.polygon.shape, parsed.value, Metres(tolerance));
      if findings.None? { return Err(Internal); }
      return Ok(Analysis.Outcome(snapped.value.suggested, findings.value));
    }

    method ParseNeighbours(neighbours: seq<Parcel>) returns (parsed: Option<seq<ParcelReference>>)
      ensures parsed == References(lib, neighbours)
    {
      var references: seq<ParcelReference> := [];
      for i := 0 to |neighbours|
        invariant References(lib, neighbours[..i]) == Some(references)
      {
        assert neighbours[..i + 1][..i] == neighbours[..i];
        var polygon := ParsePolygon(lib.engine, neighbours[i].boundary);
        if polygon.None? {
          BadNeighbour(lib, neighbours, i);
          return None;
        }
        references := references + [ParcelReference(neighbours[i].id, polygon.value)];
      }
      assert neighbours[..|neighbours|] == neighbours;
      return Some(references);
    }

    method HashInput(parcel: Parcel, proposal: Proposal, neighbours: seq<Parcel>, tolerance: Micrometres) returns (sum: string)
      ensures sum == InputHash(lib, parcel, proposal, neighbours, tolerance)
    {
      var hashParts := [parcel.boundary, proposal.boundary, parcel.crs, SixDecimals(tolerance), ALGORITHM];
      ghost var header := hashParts;
      for i := 0 to |neighbours|
        invariant hashParts == header + NeighbourParts(neighbours[..i])
      {
        assert neighbours[..i + 1][..i] == neighbours[..i];
        hashParts := hashParts + [Decimal(neighbours[i].id), neighbours[i].boundary];
      }
      assert neighbours[..|neighbours|] == neighbours;
      sum := Hash(hashParts, lib.digest);
    }

    method BuildConflicts(parcel: Parcel, proposal: Proposal, inputHash: string, outcome: Analysis.Outcome) returns (items: seq<Conflict>)
      ensures items == NewConflicts(parcel, proposal, inputHash, outcome)
    {
      items := [];
      for i := 0 to |outcome.findings|
        invariant |items| == i
        invariant forall j :: 0 <= j < i ==> items[j] == NewConflict(parcel, proposal, inputHash, outcome.suggestion, outcome.findings[j])
      {
        var finding := outcome.findings[i];
        var all := [parcel.id] + finding.parcelIds;
        var participants := new nat[|all|](k requires 0 <= k < |all| => all[k]);
        assert participants[..] == all;
        var kept := UniqueSortedIDs(participants);
        items := items + [Conflict(0, proposal.id, participants[..kept], finding.kind, finding.geometry, finding.magnitude,
                                   inputHash, Detected, outcome.suggestion, None)];
      }
    }

    // ---- The transaction ----

    // Ends at the first refusal, with the writes before it still in place.
    method RecordDetection(items: seq<Conflict>, run: DetectionRun, parcelId: Id, actor: Actor, ids: Ids) returns (ok: bool, stored: seq<Conflict>)
      requires store.Valid()
      modifies store
      ensures var done := Execute(old(store.Contents()), RecordRun(items, run, parcelId), actor, ids);
              done == if ok then Ok(Committed(store.Contents(), ConflictsReply(stored))) else Err(Internal)
      ensures ok ==> store.Valid()
    {
      ghost var d := store.Contents();
      ok, stored := InsertItems(items, parcelId, actor, ids);
      if !ok { return; }
      InsertingNeedsIds(d, items, ids.items, actor, parcelId);
      var resultIds: seq<Id> := [];
      for i := 0 to |stored|
        invariant resultIds == ids.items[..i]
      {
        resultIds := resultIds + [stored[i].id];
      }
      var created, row := store.CreateRun(run.(resultIds := resultIds), ids.row);
      if !created { return false, []; }
      ok := store.CreateAudit(Audit(actor, DetectionCompleted, RunResource, row.id, Some(row.proposalId), Nothing, RunImage(row)));
    }

    method InsertItems(items: seq<Conflict>, parcelId: Id, actor: Actor, ids: Ids) returns (ok: bool, stored: seq<Conflict>)
      requires store.Valid()
      modifies store
      ensures ok <==> InsertConflicts(old(store.Contents()), items, ids.items, actor, parcelId).Some?
      ensures ok ==> store.Valid() && InsertConflicts(old(store.Contents()), items, ids.items, actor, parcelId) == Some(store.Contents())
      ensures ok ==> |items| <= |ids.items| && stored == Numbered(items, ids.items)
    {
      ghost var d := store.Contents();
      stored := [];
      for i := 0 to |items|
        invariant store.Valid() && InsertConflicts(d, items[..i], ids.items, actor, parcelId) == Some(store.Contents())
        invariant i <= |ids.items| && stored == Numbered(items[..i], ids.items)
      {
        assert items[..i + 1][..i] == items[..i];
        ok := InsertItem(items[i], if i < |ids.items| then Some(ids.items[i]) else None, parcelId, actor);
        if !ok {
          RefusedItem(d, items, ids.items, actor, parcelId, i + 1);
          return;
        }
        stored := stored + [items[i].(id := ids.items[i])];
      }
      assert items[..|items|] == items;
      ok := true;
    }

    method InsertItem(item: Conflict, id: Option<Id>, parcelId: Id, actor: Actor) returns (ok: bool)
      requires store.Valid()
      modifies store
      ensures ok <==> id.Some? && id.value !in old(store.conflicts) && !Blank(actor.requestId)
      ensures ok ==> store.Valid() && var d, row := old(store.Contents()), item.(id := id.value);
                     store.Contents() == d.(conflicts := d.conflicts[id.value := row], audits := d.audits + [ConflictEntry(actor, parcelId, row)])
    {
      var created, stored := store.CreateConflict(item, id);
      if !created { return false; }
      ok := store.CreateAudit(Audit(actor, ConflictDetected, ConflictResource, stored.id, Some(parcelId), Nothing, ConflictImage(stored)));
    }
  }
}
