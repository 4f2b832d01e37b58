/**
 Every interleaving of every number of requests: the store and the requests
 under way stay in order, and what a client has read only grows older, never wrong.
 */
module Interleaving {
  import opened Basics
  import opened Lifecycles
  import opened Polygons
  import opened Records
  import opened Analysis
  import opened Transactions
  import opened Protocol
  import opened Trails
  import opened Growth
  import opened Invariants
  import opened Preservation
  import opened DetectionWrites

  // ---- A look-up leaves the request in order ----

  lemma CreatedProposalIsFresh(lib: Library, d: Db, parcel: Parcel, n: NewProposal, actor: Actor)
    requires KnownParcel(d, parcel) && parcel.id == n.parcelId && parcel.version == n.baseVersion
    requires Parsed(lib.engine, n.boundary).Some?
    ensures FreshDraft(lib, d, CreatedProposal(lib, parcel, n, actor))
  {
  }

  lemma DerivedProposalIsFresh(lib: Library, d: Db, conflict: Conflict, source: Proposal, parcel: Parcel, rationale: string, actor: Actor)
    requires KnownParcel(d, parcel) && parcel.id == source.parcelId && Parsed(lib.engine, conflict.suggestion).Some?
    ensures FreshDraft(lib, d, DerivedProposal(lib, conflict, source, parcel, rationale, actor))
  {
  }

  // Each row is stored under its own ID.
  lemma RowIds(d: Db, id: Id)
    requires ObservationsOk(d) && ProposalsOk(d) && ConflictsOk(d)
    ensures id in d.observations ==> d.observations[id].id == id
    ensures id in d.proposals ==> d.proposals[id].id == id
    ensures id in d.conflicts ==> d.conflicts[id].id == id
  {
    assert ObservationTracked(Lookup(d.observations, id), id, Trail(d.audits, ObservationResource, id));
    assert ProposalTracked(Lookup(d.proposals, id), id, Trail(d.audits, ProposalResource, id));
    assert ConflictTracked(Lookup(d.conflicts, id), id, Trail(d.audits, ConflictResource, id));
  }

  // The rows a client may read now are copies it may keep.
  lemma CurrentRowsAreKnown(d: Db, id: Id)
    requires ObservationsOk(d) && ProposalsOk(d) && ConflictsOk(d)
    ensures id in d.observations ==> d.observations[id].id == id && KnownObservation(d, d.observations[id])
    ensures id in d.proposals ==> d.proposals[id].id == id && KnownProposal(d, d.proposals[id])
    ensures id in d.conflicts ==> d.conflicts[id].id == id && KnownConflict(d, d.conflicts[id])
  {
    hide ObservationsOk, ProposalsOk, ConflictsOk;
    RowIds(d, id);
  }

  lemma OpenStore(lib: Library, d: Db)
    requires StoreOk(lib, d)
    ensures ParcelsOk(d) && ObservationsOk(d) && ProposalsOk(d) && ConflictsOk(d) && LinksOk(d) && GroundedOk(lib, d) && RunsOk(d)
  {
    hide ParcelsOk, ObservationsOk, ProposalsOk, ConflictsOk, LinksOk, GroundedOk, RunsOk, DraftsOk;
  }

  lemma ParcelRequestIsOk(lib: Library, d: Db, q: Request, actor: Actor)
    requires ParcelsOk(d)
    requires q.CreateParcelRequest? || q.UpdateParcelRequest? || q.CreateProposalRequest? || q.ImportObservationRequest?
    ensures StageOk(lib, d, Started(lib, d, q, actor), actor)
  {
    hide Trail, ParcelsOk;
    match q
    case UpdateParcelRequest(id, patch) =>
      if id in d.parcels { CurrentParcelIsKnown(d, id); }
    case CreateProposalRequest(n) =>
      if n.parcelId in d.parcels { CurrentParcelIsKnown(d, n.parcelId); }
    case _ =>
  }

  lemma MoveRequestIsOk(lib: Library, d: Db, q: Request, actor: Actor)
    requires ObservationsOk(d) && ProposalsOk(d) && ConflictsOk(d)
    requires q.MoveObservationRequest? || q.MoveProposalRequest? || q.MoveConflictRequest? || q.ApplyRequest? || q.DetectRequest?
    ensures StageOk(lib, d, Started(lib, d, q, actor), actor)
  {
    hide Trail, ObservationsOk, ProposalsOk, ConflictsOk, ObservationLater, ProposalLater, ConflictLater, KeyAccepted;
    CurrentRowsAreKnown(d, if q.DetectRequest? then q.proposalId else q.id);
  }

  lemma StartedIsOk(lib: Library, d: Db, q: Request, actor: Actor)
    requires StoreOk(lib, d)
    ensures StageOk(lib, d, Started(lib, d, q, actor), actor)
  {
    hide StoreOk, StageOk, Started, ParcelsOk, ObservationsOk, ProposalsOk, ConflictsOk;
    OpenStore(lib, d);
    match q
    case CreateParcelRequest(_) => ParcelRequestIsOk(lib, d, q, actor);
    case UpdateParcelRequest(_, _) => ParcelRequestIsOk(lib, d, q, actor);
    case ImportObservationRequest(_) => ParcelRequestIsOk(lib, d, q, actor);
    case CreateProposalRequest(_) => ParcelRequestIsOk(lib, d, q, actor);
    case _ => MoveRequestIsOk(lib, d, q, actor);
  }

  lemma NewRunIsOk(lib: Library, d: Db, proposal: Proposal, parcel: Parcel, neighbours: seq<Parcel>,
                   tolerance: Micrometres, key: string, actor: Actor)
    requires KnownProposal(d, proposal)
    ensures StageOk(lib, d, AfterReadingNeighbours(lib, proposal, parcel, neighbours, tolerance, key, actor), actor)
  {
  }

  lemma SourceReadingIsOk(lib: Library, d: Db, c: Client)
    requires ParcelsOk(d) && ObservationsOk(d) && ProposalsOk(d) && ConflictsOk(d)
    requires (c.stage.ReadSource? || c.stage.ReadSourceParcel?) && StageOk(lib, d, c.stage, c.actor)
    ensures StageOk(lib, d, Reading(lib, d, c), c.actor)
  {
    hide Trail, ParcelsOk, ObservationsOk, ProposalsOk, ConflictsOk, DerivedProposal;
    match c.stage
    case ReadSource(conflict, _) => CurrentRowsAreKnown(d, conflict.proposalId);
    case ReadSourceParcel(conflict, source, rationale) =>
      if source.parcelId in d.parcels {
        CurrentParcelIsKnown(d, source.parcelId);
        DerivedProposalIsFresh(lib, d, conflict, source, d.parcels[source.parcelId], rationale, c.actor);
      }
  }

  lemma EvidenceReadingIsOk(lib: Library, d: Db, c: Client)
    requires (c.stage.ReadEvidence? || c.stage.ReadReplacement?) && StageOk(lib, d, c.stage, c.actor)
    ensures StageOk(lib, d, Reading(lib, d, c), c.actor)
  {
    hide Trail;
    if c.stage.ReadEvidence? {
      hide CreatedProposal;
      CreatedProposalIsFresh(lib, d, c.stage.parcel, c.stage.newProposal, c.actor);
    }
  }

  lemma DetectionReadingIsOk(lib: Library, d: Db, c: Client)
    requires c.stage.FindRun? || c.stage.ReadDetectionParcel? || c.stage.ReadNeighbours? || c.stage.FindRunAgain? || c.stage.ReplayRun? || c.stage.Finished?
    requires StageOk(lib, d, c.stage, c.actor)
    ensures StageOk(lib, d, Reading(lib, d, c), c.actor)
  {
    hide AfterReadingNeighbours, RunOf, ActiveNeighbours, ProposalLater, RequestHash;
    match c.stage
    case ReadNeighbours(proposal, parcel, tolerance, key) =>
      NewRunIsOk(lib, d, proposal, parcel, ActiveNeighbours(d, parcel.crs, parcel.id), tolerance, key, c.actor);
    case _ =>
  }

  lemma ReadingIsOk(lib: Library, d: Db, c: Client)
    requires StoreOk(lib, d) && StageOk(lib, d, c.stage, c.actor) && !c.stage.Commit?
    ensures StageOk(lib, d, Reading(lib, d, c), c.actor)
  {
    hide StoreOk, StageOk, Started, ParcelsOk, ObservationsOk, ProposalsOk, ConflictsOk;
    OpenStore(lib, d);
    match c.stage
    case Start => StartedIsOk(lib, d, c.request, c.actor);
    case ReadEvidence(_, _, _) => EvidenceReadingIsOk(lib, d, c);
    case ReadReplacement(_, _, _) => EvidenceReadingIsOk(lib, d, c);
    case ReadSource(_, _) => SourceReadingIsOk(lib, d, c);
    case ReadSourceParcel(_, _, _) => SourceReadingIsOk(lib, d, c);
    case _ => DetectionReadingIsOk(lib, d, c);
  }

  // ---- One step, any step, every run ----

  lemma StepIsOk(lib: Library, d: Db, c: Client, ids: Ids)
    requires StoreOk(lib, d) && StageOk(lib, d, c.stage, c.actor)
    ensures var (d', c') := Step(lib, d, c, ids);
            StoreOk(lib, d') && Later(d, d') && StageOk(lib, d', c'.stage, c'.actor)
  {
    hide StoreOk, TxOk, Execute, Reading;
    LaterIsReflexive(d);
    hide Later;
    if c.stage.Commit? {
      if Execute(d, c.stage.tx, c.actor, ids).Ok? {
        TransactionKeeps(lib, d, c.stage.tx, c.actor, ids);
      }
    } else {
      ReadingIsOk(lib, d, c);
    }
  }

  lemma EventIsOk(lib: Library, s: System, event: Event)
    requires SystemOk(lib, s)
    ensures SystemOk(lib, Apply(lib, s, event)) && Later(s.db, Apply(lib, s, event).db)
  {
    hide StoreOk, Step;
    LaterIsReflexive(s.db);
    hide Later;
    match event
    case Arrive(who, request, actor) =>
    case Act(who, ids) =>
      if Busy(s, who) {
        StepIsOk(lib, s.db, s.clients[who], ids);
        var s' := Apply(lib, s, event);
        forall other | other in s'.clients ensures StageOk(lib, s'.db, s'.clients[other].stage, s'.clients[other].actor) {
          if other != who {
            StageOkIsStable(lib, s.db, s'.db, s.clients[other].stage, s.clients[other].actor);
          }
        }
      }
  }

  lemma EmptyStoreIsOk(lib: Library)
    ensures StoreOk(lib, EMPTY_DB)
  {
  }

  /** Every reachable state of every interleaving is in order. */
  lemma {:induction false} AlwaysOk(lib: Library, events: seq<Event>)
    ensures SystemOk(lib, After(lib, events))
  {
    hide StoreOk;
    if events == [] {
      EmptyStoreIsOk(lib);
    } else {
      AlwaysOk(lib, events[..|events| - 1]);
      EventIsOk(lib, After(lib, events[..|events| - 1]), events[|events| - 1]);
    }
  }

  // Running on only moves the store forward.
  lemma {:induction false} RunsGoForward(lib: Library, events: seq<Event>, n: nat)
    requires n <= |events|
    ensures Later(After(lib, events[..n]).db, After(lib, events).db)
    decreases |events|
  {
    if n == |events| {
      assert events[..n] == events;
      LaterIsReflexive(After(lib, events).db);
    } else {
      var front := events[..|events| - 1];
      assert front[..n] == events[..n];
      RunsGoForward(lib, front, n);
      AlwaysOk(lib, front);
      EventIsOk(lib, After(lib, front), events[|events| - 1]);
      LaterIsTransitive(After(lib, events[..n]).db, After(lib, front).db, After(lib, events).db);
    }
  }
}
