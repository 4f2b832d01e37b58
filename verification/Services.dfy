/**
 The service methods, each run alone on the store. What each leaves in the store
 and replies is the atomic request of Protocol.
 */
module Services {
  import opened Basics
  import opened Text
  import opened Lifecycles
  import opened Polygons
  import opened Records
  import opened Analysis
  import opened Transactions
  import Protocol
  import opened Refinement
  import opened Repositories

  // The request's outcome after one look-up decides it.
  lemma DecidedByOneLookUp(lib: Library, d: Db, q: Request, actor: Actor, ids: Ids, stage: Protocol.Stage)
    requires Protocol.Started(lib, d, q, actor) == stage && Decided(d, stage, actor, ids).Some?
    ensures Protocol.Serve(lib, d, q, actor, ids) == Decided(d, stage, actor, ids).value
  {
    hide Protocol.Started, Decided;
    ServedInOneLookUp(lib, d, q, actor, ids);
  }

  class CadastralService {
    const store: Store
    const lib: Library

    constructor (store: Store, lib: Library)
      ensures this.store == store && this.lib == lib
    {
      this.store, this.lib := store, lib;
    }

    method CreateParcel(n: NewParcel, actor: Actor, ids: Ids) returns (reply: Reply)
      requires store.Valid()
      modifies store
      ensures store.Valid()
      ensures (store.Contents(), reply) == Protocol.Serve(lib, old(store.Contents()), CreateParcelRequest(n), actor, ids)
    {
      ghost var d, q := store.Contents(), CreateParcelRequest(n);
      ghost var stage := Protocol.StartCreateParcel(lib, n);
      DecidedByOneLookUp(lib, d, q, actor, ids, stage);
      if !lib.crsAccepted(n.crs) { return Failure(GeometryRejected); }
      var polygon := ParsePolygon(lib.engine, n.boundary);
      if polygon.None? { return Failure(GeometryRejected); }
      var state := n.state;
      if state == "" { state := "active"; }
      var item := Parcel(0, TrimSpace(n.code), TrimSpace(n.name), n.boundary, lib.upper(TrimSpace(n.crs)),
                         polygon.value.area, 1, TrimSpace(n.owner), state);
      assert stage == Protocol.Commit(InsertParcel(item));
      // Transaction.
      var saved := store.Contents();
      if exists k | k in store.parcels :: store.parcels[k].code == item.code { return Failure(StateConflict); }
      var ok, stored := store.CreateParcel(item, ids.row);
      if ok {
        ok := store.CreateAudit(Audit(actor, ParcelCreated, ParcelResource, stored.id, Some(stored.id), Nothing, ParcelImage(stored)));
      }
      if !ok {
        store.Rollback(saved);
        return Failure(Internal);
      }
      return ParcelReply(stored);
    }

    method UpdateParcel(id: Id, patch: ParcelPatch, actor: Actor, ids: Ids) returns (reply: Reply)
      requires store.Valid()
      modifies store
      ensures store.Valid()
      ensures (store.Contents(), reply) == Protocol.Serve(lib, old(store.Contents()), UpdateParcelRequest(id, patch), actor, ids)
    {
      hide Execute, Protocol.Patched;
      ghost var d, q := store.Contents(), UpdateParcelRequest(id, patch);
      ghost var stage := Protocol.Started(lib, d, q, actor);
      DecidedByOneLookUp(lib, d, q, actor, ids, stage);
      if id !in store.parcels { return Failure(NotFound); }
      var before := store.parcels[id];
      var version := before.version;
      if patch.version.Some? { version := patch.version.value; }
      var after := PatchParcel(before, patch);
      if after.None? { return Failure(GeometryRejected); }
      reply := CommitParcelUpdate(before, after.value, version, actor, ids);
    }

    // The fields of the row copy that the request names, one after another.
    method PatchParcel(before: Parcel, patch: ParcelPatch) returns (patched: Option<Parcel>)
      ensures patched == Protocol.Patched(lib, before, patch)
      ensures patched.Some? ==> patched.value.id == before.id
    {
      var after := before;
      if patch.name.Some? { after := after.(name := TrimSpace(patch.name.value)); }
      if patch.owner.Some? { after := after.(owner := TrimSpace(patch.owner.value)); }
      if patch.state.Some? { after := after.(state := patch.state.value); }
      if patch.crs.Some? {
        if !lib.crsAccepted(patch.crs.value) { return None; }
        after := after.(crs := lib.upper(TrimSpace(patch.crs.value)));
      }
      if patch.boundary.Some? {
        var polygon := ParsePolygon(lib.engine, patch.boundary.value);
        if polygon.None? { return None; }
        after := after.(boundary := patch.boundary.value);
        after := after.(area := polygon.value.area);
      }
      return Some(after);
    }

    method CommitParcelUpdate(before: Parcel, after: Parcel, version: nat, actor: Actor, ids: Ids) returns (reply: Reply)
      requires store.Valid() && after.id == before.id
      modifies store
      ensures store.Valid()
      ensures Decided(old(store.Contents()), Protocol.Commit(Tx.UpdateParcel(before, after, version)), actor, ids) == Some((store.Contents(), reply))
    {
      var saved := store.Contents();
      var ok := store.UpdateParcel(after, version);
      if ok {
        ok := store.CreateAudit(Audit(actor, ParcelUpdated, ParcelResource, before.id, Some(before.id), ParcelImage(before), ParcelImage(after)));
      }
      if !ok {
        store.Rollback(saved);
        return Failure(Internal);
      }
      return ParcelReply(after.(version := version + 1));
    }

    method ImportObservation(n: NewObservation, actor: Actor, ids: Ids) returns (reply: Reply)
      requires store.Valid()
      modifies store
      ensures store.Valid()
      ensures (store.Contents(), reply) == Protocol.Serve(lib, old(store.Contents()), ImportObservationRequest(n), actor, ids)
    {
      ghost var d, q := store.Contents(), ImportObservationRequest(n);
      ghost var stage := Protocol.Started(lib, d, q, actor);
      DecidedByOneLookUp(lib, d, q, actor, ids, stage);
      if n.parcelId !in store.parcels { return Failure(NotFound); }
      if !lib.pointAccepted(n.evidence.point) { return Failure(GeometryRejected); }
      var state := Usable;
      if n.state.Some? { state := n.state.value; }
      var evidence := n.evidence.(technique := TrimSpace(n.evidence.technique), checksum := TrimSpace(n.evidence.checksum));
      var item := Observation(0, n.parcelId, TrimSpace(n.code), evidence, state, 1, None, TrimSpace(n.note), actor.id);
      assert stage == Protocol.Commit(InsertObservation(item));
      // Transaction.
      var saved := store.Contents();
      var ok, stored := store.CreateObservation(item, ids.row);
      if ok {
        ok := store.CreateAudit(Audit(actor, ObservationImported, ObservationResource, stored.id, Some(stored.parcelId), Nothing, ObservationImage(stored)));
      }
      if !ok {
        store.Rollback(saved);
        return Failure(Internal);
      }
      return ObservationReply(stored);
    }

    method TransitionObservation(id: Id, m: ObservationMove, actor: Actor, ids: Ids) returns (reply: Reply)
      requires store.Valid()
      modifies store
      ensures store.Valid()
      ensures (store.Contents(), reply) == Protocol.Serve(lib, old(store.Contents()), MoveObservationRequest(id, m), actor, ids)
    {
      hide Execute, Protocol.RunAlone, CanObservationTransition;
      ghost var d, q := store.Contents(), MoveObservationRequest(id, m);
      ghost var stage := Protocol.Started(lib, d, q, actor);
      RunReading(lib, d, Protocol.Client(q, actor, Protocol.Start), ids);
      if id !in store.observations { return Failure(NotFound); }
      var item := store.observations[id];
      if item.version != m.version { return Failure(StateConflict); }
      if !CanObservationTransition(item.state, m.to) { return Failure(StateConflict); }
      if actor.role != Surveyor && actor.role != GisAnalyst && actor.role != Admin { return Failure(Forbidden); }
      if m.to == Superseded {
        if m.replacement.None? || m.replacement.value == item.id { return Failure(InvalidInput); }
        RunReading(lib, d, Protocol.Client(q, actor, stage), ids);
        if m.replacement.value !in store.observations { return Failure(NotFound); }
        var replacement := store.observations[m.replacement.value];
        if replacement.parcelId != item.parcelId || replacement.state == Superseded { return Failure(StateConflict); }
      } else if m.replacement.Some? {
        return Failure(InvalidInput);
      }
      var note := TrimSpace(m.note);
      DecidedIsTheRun(lib, d, Protocol.Client(q, actor, Protocol.Commit(MoveObservation(item, m.to, m.replacement, note))), ids);
      TrimSpaceIdempotent(m.note);
      reply := CommitObservationMove(item, m.to, m.replacement, note, actor, ids);
    }

    method CommitObservationMove(before: Observation, to: ObservationState, replacement: Option<Id>, note: string, actor: Actor, ids: Ids)
      returns (reply: Reply)
      requires store.Valid() && TrimSpace(note) == note
      modifies store
      ensures store.Valid()
      ensures Decided(old(store.Contents()), Protocol.Commit(MoveObservation(before, to, replacement, note)), actor, ids)
           == Some((store.Contents(), reply))
    {
      var item, id := before, before.id;
      var saved := store.Contents();
      var ok := store.TransitionObservation(id, item.version, to, replacement, note);
      if ok {
        ok := store.CreateAudit(Audit(actor, ObservationMoved, ObservationResource, id, Some(item.parcelId),
                                      ObservationImage(before), ObservationChange(to, item.version + 1, replacement, note)));
      }
      if !ok {
        store.Rollback(saved);
        return Failure(StateConflict);
      }
      item := item.(state := to, version := item.version + 1);
      item := item.(replacedBy := replacement);
      if note != "" { item := item.(note := note); }
      return ObservationReply(item);
    }

    method CreateProposal(n: NewProposal, actor: Actor, ids: Ids) returns (reply: Reply)
      requires store.Valid()
      modifies store
      ensures store.Valid()
      ensures (store.Contents(), reply) == Protocol.Serve(lib, old(store.Contents()), CreateProposalRequest(n), actor, ids)
    {
      hide Execute, Protocol.RunAlone;
      ghost var d, q := store.Contents(), CreateProposalRequest(n);
      ghost var stage := Protocol.Started(lib, d, q, actor);
      RunReading(lib, d, Protocol.Client(q, actor, Protocol.Start), ids);
      if n.parcelId !in store.parcels { return Failure(NotFound); }
      var parcel := store.parcels[n.parcelId];
      if n.baseVersion != parcel.version { return Failure(StateConflict); }
      var proposed := ParsePolygon(lib.engine, n.boundary);
      if proposed.None? { return Failure(GeometryRejected); }
      var belong := EvidenceBelongs(parcel, n, actor, ids);
      if !belong {
        DecidedIsTheRun(lib, d, Protocol.Client(q, actor, Protocol.Fail(InvalidInput)), ids);
        return Failure(InvalidInput);
      }
      var item := Proposal(0, n.parcelId, n.baseVersion, n.boundary, n.observationIds, n.tolerance,
                           proposed.value.area - parcel.area, Draft, TrimSpace(n.rationale), 1, actor.id, None);
      DecidedIsTheRun(lib, d, Protocol.Client(q, actor, Protocol.Commit(InsertProposal(item))), ids);
      reply := CommitNewProposal(item, actor, ids);
    }

    // Every listed observation exists and belongs to the parcel.
    method EvidenceBelongs(parcel: Parcel, n: NewProposal, actor: Actor, ghost ids: Ids) returns (belong: bool)
      ensures var d, c := store.Contents(), Protocol.Client(CreateProposalRequest(n), actor, Protocol.ReadEvidence(parcel, n, 0));
              Protocol.RunAlone(lib, d, c, ids)
              == Protocol.RunAlone(lib, d, c.(stage := if belong then Protocol.Commit(InsertProposal(Protocol.CreatedProposal(lib, parcel, n, actor)))
                                                       else Protocol.Fail(InvalidInput)), ids)
    {
      hide Protocol.RunAlone;
      ghost var d, c := store.Contents(), Protocol.Client(CreateProposalRequest(n), actor, Protocol.ReadEvidence(parcel, n, 0));
      for i := 0 to |n.observationIds|
        invariant Protocol.RunAlone(lib, d, c, ids) == Protocol.RunAlone(lib, d, c.(stage := Protocol.ReadEvidence(parcel, n, i)), ids)
      {
        var id := n.observationIds[i];
        RunReading(lib, d, c.(stage := Protocol.ReadEvidence(parcel, n, i)), ids);
        if id !in store.observations || store.observations[id].parcelId != n.parcelId {
          return false;
        }
      }
      RunReading(lib, d, c.(stage := Protocol.ReadEvidence(parcel, n, |n.observationIds|)), ids);
      return true;
    }

    method CommitNewProposal(item: Proposal, actor: Actor, ids: Ids) returns (reply: Reply)
      requires store.Valid()
      modifies store
      ensures store.Valid()
      ensures Decided(old(store.Contents()), Protocol.Commit(InsertProposal(item)), actor, ids) == Some((store.Contents(), reply))
    {
      var saved := store.Contents();
      var ok, stored := store.CreateProposal(item, ids.row);
      if ok {
        ok := store.CreateAudit(Audit(actor, ProposalCreated, ProposalResource, stored.id, Some(stored.parcelId), Nothing, ProposalImage(stored)));
      }
      if !ok {
        store.Rollback(saved);
        return Failure(Internal);
      }
      return ProposalReply(stored);
    }

    method TransitionProposal(id: Id, m: ProposalMove, actor: Actor, ids: Ids) returns (reply: Reply)
      requires store.Valid()
      modifies store
      ensures store.Valid()
      ensures (store.Contents(), reply) == Protocol.Serve(lib, old(store.Contents()), MoveProposalRequest(id, m), actor, ids)
    {
      hide Execute, CanProposalTransition, MayMoveProposal;
      ghost var d, q := store.Contents(), MoveProposalRequest(id, m);
      DecidedByOneLookUp(lib, d, q, actor, ids, Protocol.Started(lib, d, q, actor));
      if id !in store.proposals { return Failure(NotFound); }
      var item := store.proposals[id];
      if !ValidProposalState(m.to) || !CanProposalTransition(item.state, m.to) { return Failure(StateConflict); }
      var refused := AuthorizeProposalTransition(item, m.to, actor);
      if refused.Some? { return Failure(refused.value); }
      reply := CommitProposalMove(item, m.to, m.rationale, actor, ids);
    }

    method OptionalUpdates(to: ProposalState, rationale: string, actor: Actor) returns (updates: ProposalUpdates)
      ensures updates == ProposalUpdates(if rationale == "" then None else Some(rationale),
                                         if IsReviewTransition(to) then Some(actor.id) else None)
    {
      updates := ProposalUpdates(None, None);
      if rationale != "" { updates := updates.(rationale := Some(rationale)); }
      if IsReviewTransition(to) { updates := updates.(reviewedBy := Some(actor.id)); }
    }

    method CommitProposalMove(before: Proposal, to: ProposalState, rationale: string, actor: Actor, ids: Ids) returns (reply: Reply)
      requires store.Valid()
      modifies store
      ensures store.Valid()
      ensures Decided(old(store.Contents()), Protocol.Commit(MoveProposal(before, to, rationale)), actor, ids) == Some((store.Contents(), reply))
    {
      var item, id := before, before.id;
      var updates := OptionalUpdates(to, rationale, actor);
      var saved := store.Contents();
      var ok := store.TransitionProposal(id, item.version, item.state, to, updates);
      if ok {
        ok := store.CreateAudit(Audit(actor, ProposalMoved, ProposalResource, id, Some(item.parcelId),
                                      ProposalImage(before), ProposalChange(to, item.version + 1)));
      }
      if !ok {
        store.Rollback(saved);
        return Failure(StateConflict);
      }
      item := item.(state := to, version := item.version + 1);
      if IsReviewTransition(to) { item := item.(reviewedBy := Some(actor.id)); }
      return ProposalReply(item);
    }

    // A state the table does not know is a conflict, not a matter of permission.
    method AuthorizeProposalTransition(item: Proposal, to: ProposalState, actor: Actor) returns (refused: Option<Error>)
      ensures refused == if !ValidProposalState(to) then Some(StateConflict)
                         else if MayMoveProposal(item.createdBy, to, actor.id, actor.role) then None
                         else Some(Forbidden)
    {
      var isAuthor := actor.id == item.createdBy;
      if to == Validated || to == Submitted || to == Draft {
        return if isAuthor || actor.role == Admin then None else Some(Forbidden);
      }
      if to == Reviewed || to == Accepted || to == Rejected || to == Revision {
        if actor.role != Reviewer && actor.role != Admin { return Some(Forbidden); }
        return if isAuthor then Some(Forbidden) else None;
      }
      return Some(StateConflict);
    }

    method TransitionConflict(id: Id, to: ConflictState, actor: Actor, ids: Ids) returns (reply: Reply)
      requires store.Valid()
      modifies store
      ensures store.Valid()
      ensures (store.Contents(), reply) == Protocol.Serve(lib, old(store.Contents()), MoveConflictRequest(id, to), actor, ids)
    {
      hide Execute, CanConflictTransition;
      ghost var d, q := store.Contents(), MoveConflictRequest(id, to);
      DecidedByOneLookUp(lib, d, q, actor, ids, Protocol.Started(lib, d, q, actor));
      if id !in store.conflicts { return Failure(NotFound); }
      var item := store.conflicts[id];
      if !CanConflictTransition(item.state, to) { return Failure(StateConflict); }
      reply := CommitConflictMove(item, to, actor, ids);
    }

    method CommitConflictMove(before: Conflict, to: ConflictState, actor: Actor, ids: Ids) returns (reply: Reply)
      requires store.Valid()
      modifies store
      ensures store.Valid()
      ensures Decided(old(store.Contents()), Protocol.Commit(MoveConflict(before, to)), actor, ids) == Some((store.Contents(), reply))
    {
      var item, id := before, before.id;
      var resolved: Option<Id> := None;
      if to == Resolved || to == Closed { resolved := Some(actor.id); }
      var saved := store.Contents();
      var ok := store.TransitionConflict(id, item.state, to, resolved);
      if ok {
        ok := store.CreateAudit(Audit(actor, ConflictMoved, ConflictResource, id, None, ConflictImage(before), ConflictChange(to)));
      }
      if !ok {
        store.Rollback(saved);
        return Failure(StateConflict);
      }
      item := item.(state := to);
      item := item.(resolvedBy := resolved);
      return ConflictReply(item);
    }

    method ApplyConflictSuggestion(id: Id, reason: string, actor: Actor, ids: Ids) returns (reply: Reply)
      requires store.Valid()
      modifies store
      ensures store.Valid()
      ensures (store.Contents(), reply) == Protocol.Serve(lib, old(store.Contents()), ApplyRequest(id, reason), actor, ids)
    {
      hide Execute, Protocol.RunAlone;
      ghost var d, q := store.Contents(), ApplyRequest(id, reason);
      ghost var stage := Protocol.Started(lib, d, q, actor);
      RunReading(lib, d, Protocol.Client(q, actor, Protocol.Start), ids);
      if actor.role != Reviewer && actor.role != Admin { return Failure(Forbidden); }
      if id !in store.conflicts { return Failure(NotFound); }
      var item := store.conflicts[id];
      if item.state != ResolutionProposed { return Failure(StateConflict); }
      RunReading(lib, d, Protocol.Client(q, actor, Protocol.ReadSource(item, reason)), ids);
      if item.proposalId !in store.proposals { return Failure(NotFound); }
      var proposal := store.proposals[item.proposalId];
      if item.suggestion == "" { return Failure(StateConflict); }
      var polygon := ParsePolygon(lib.engine, item.suggestion);
      if polygon.None? { return Failure(Internal); }
      RunReading(lib, d, Protocol.Client(q, actor, Protocol.ReadSourceParcel(item, proposal, reason)), ids);
      if proposal.parcelId !in store.parcels { return Failure(NotFound); }
      var parcel := store.parcels[proposal.parcelId];
      var derived := DeriveProposal(item, proposal, parcel, polygon.value, reason, actor);
      DecidedIsTheRun(lib, d, Protocol.Client(q, actor, Protocol.Commit(ApplySuggestion(item, derived))), ids);
      reply := CommitSuggestion(item, derived, actor, ids);
    }

    method DeriveProposal(item: Conflict, proposal: Proposal, parcel: Parcel, polygon: Polygon, reason: string, actor: Actor) returns (derived: Proposal)
      requires Parsed(lib.engine, item.suggestion) == Some(polygon)
      ensures derived == Protocol.DerivedProposal(lib, item, proposal, parcel, reason, actor)
    {
      var rationale := TrimSpace(reason);
      if rationale == "" {
        rationale := "Applied deterministic suggestion from topology conflict " + Decimal(item.id) + ".";
      }
      derived := Proposal(0, proposal.parcelId, parcel.version, item.suggestion, proposal.observationIds, proposal.tolerance,
                          polygon.area - parcel.area, Draft, rationale, proposal.version + 1, actor.id, None);
    }

    method CommitSuggestion(item: Conflict, derived: Proposal, actor: Actor, ids: Ids) returns (reply: Reply)
      requires store.Valid()
      modifies store
      ensures store.Valid()
      ensures Decided(old(store.Contents()), Protocol.Commit(ApplySuggestion(item, derived)), actor, ids) == Some((store.Contents(), reply))
    {
      hide Execute;
      var saved := store.Contents();
      var ok, stored := WriteSuggestion(item, derived, actor, ids);
      if !ok {
        store.Rollback(saved);
        return Failure(Internal);
      }
      return ProposalReply(stored);
    }

    // The body of the transaction: the first refusal ends it, with the writes before it still in place.
    method WriteSuggestion(item: Conflict, derived: Proposal, actor: Actor, ids: Ids) returns (ok: bool, stored: Proposal)
      requires store.Valid()
      modifies store
      ensures Execute(old(store.Contents()), ApplySuggestion(item, derived), actor, ids)
           == if ok then Ok(Committed(store.Contents(), ProposalReply(stored))) else Err(Internal)
      ensures ok ==> store.Valid()
    {
      ghost var d := store.Contents();
      ok, stored := store.CreateProposal(derived, ids.row);
      if !ok { return; }
      ok := store.TransitionConflict(item.id, item.state, Resolved, Some(actor.id));
      if !ok { return; }
      var created := Audit(actor, ProposalDerived, ProposalResource, stored.id, Some(stored.parcelId), Nothing, ProposalImage(stored));
      ok := store.CreateAudit(created);
      if !ok { return; }
      var applied := Audit(actor, SuggestionApplied, ConflictResource, item.id, Some(stored.id), ConflictImage(item), AppliedChange(Resolved, stored.id));
      ok := store.CreateAudit(applied);
      assert d.audits + [created] + [applied] == d.audits + [created, applied];
    }
  }
}
