/**
 Reading the audit log: the entries of one resource in order, and what a
 resource must be now if those entries are replayed from its creation.
 */
module Trails {
  import opened Basics
  import opened Lifecycles
  import opened Records
  import opened Transactions

  function Trail(log: seq<AuditEntry>, resource: Resource, id: Id): seq<AuditEntry> {
    if log == [] then []
    else
      var last := log[|log| - 1];
      Trail(log[..|log| - 1], resource, id) + (if last.resource == resource && last.resourceId == id then [last] else [])
  }

  lemma TrailSnoc(log: seq<AuditEntry>, e: AuditEntry, resource: Resource, id: Id)
    ensures Trail(log + [e], resource, id)
         == Trail(log, resource, id) + (if e.resource == resource && e.resourceId == id then [e] else [])
  {
    assert (log + [e])[..|log|] == log;
  }

  lemma {:induction false} TrailConcat(log: seq<AuditEntry>, more: seq<AuditEntry>, resource: Resource, id: Id)
    ensures Trail(log + more, resource, id) == Trail(log, resource, id) + Trail(more, resource, id)
  {
    if more == [] {
      assert log + more == log;
    } else {
      TrailConcat(log, more[..|more| - 1], resource, id);
      assert (log + more)[..|log + more| - 1] == log + more[..|more| - 1];
    }
  }

  lemma TrailGrows(log: seq<AuditEntry>, log': seq<AuditEntry>, resource: Resource, id: Id)
    requires log <= log'
    ensures Trail(log, resource, id) <= Trail(log', resource, id)
  {
    assert log' == log + log'[|log|..];
    TrailConcat(log, log'[|log|..], resource, id);
  }

  ghost predicate Silent(entries: seq<AuditEntry>, resource: Resource) {
    forall i :: 0 <= i < |entries| ==> entries[i].resource != resource
  }

  lemma {:induction false} SilentTrail(entries: seq<AuditEntry>, resource: Resource, id: Id)
    requires Silent(entries, resource)
    ensures Trail(entries, resource, id) == []
  {
    if entries != [] {
      SilentTrail(entries[..|entries| - 1], resource, id);
    }
  }

  // ---- Parcels: the log holds every version ----

  // The parcel as it was at `version`: the after-image keeps the number of the version it replaced.
  function ParcelAt(log: seq<AuditEntry>, id: Id, version: nat): Option<Parcel> {
    var t := Trail(log, ParcelResource, id);
    if 1 <= version <= |t| && t[version - 1].after.ParcelImage?
    then Some(t[version - 1].after.parcel.(version := version))
    else None
  }

  // ---- Observations, proposals and conflicts: replay ----

  function ReplayedObservation(t: seq<AuditEntry>): Option<Observation> {
    if t == [] then None
    else
      var e := t[|t| - 1];
      if |t| == 1 then
        if e.action == ObservationImported && e.after.ObservationImage? then Some(e.after.observation) else None
      else
        match ReplayedObservation(t[..|t| - 1])
        case None => None
        case Some(o) =>
          if e.action == ObservationMoved && e.before == ObservationImage(o) && e.after.ObservationChange?
          then Some(MovedObservation(o, e.after.observationState, e.after.replacedBy, e.after.note).(version := e.after.version))
          else None
  }

  // A rationale changed by a transition is missing from its after-image, so replay leaves rationales out.
  function Erased(p: Proposal): Proposal {
    p.(rationale := "")
  }

  function ReplayedProposal(t: seq<AuditEntry>): Option<Proposal> {
    if t == [] then None
    else
      var e := t[|t| - 1];
      if |t| == 1 then
        if (e.action == ProposalCreated || e.action == ProposalDerived) && e.after.ProposalImage?
        then Some(Erased(e.after.proposal)) else None
      else
        match ReplayedProposal(t[..|t| - 1])
        case None => None
        case Some(p) =>
          if e.action == ProposalMoved && e.before.ProposalImage? && Erased(e.before.proposal) == p && e.after.ProposalChange?
          then Some(p.(state := e.after.proposalState, version := e.after.version,
                       reviewedBy := if IsReviewTransition(e.after.proposalState) then Some(e.actorId) else p.reviewedBy))
          else None
  }

  function ReplayedConflict(t: seq<AuditEntry>): Option<Conflict> {
    if t == [] then None
    else
      var e := t[|t| - 1];
      if |t| == 1 then
        if e.action == ConflictDetected && e.after.ConflictImage? then Some(e.after.conflict) else None
      else
        match ReplayedConflict(t[..|t| - 1])
        case None => None
        case Some(c) =>
          if e.before != ConflictImage(c) then None
          else if e.action == ConflictMoved && e.after.ConflictChange? then
            Some(MovedConflict(c, e.after.conflictState, Resolver(e.after.conflictState, e.actorId)))
          else if e.action == SuggestionApplied && e.after.AppliedChange? then
            Some(MovedConflict(c, e.after.conflictState, Some(e.actorId)))
          else None
  }

  // The drafts derived from a conflict, as its trail records them.
  function Applications(t: seq<AuditEntry>): seq<Id> {
    if t == [] then []
    else
      var e := t[|t| - 1];
      Applications(t[..|t| - 1])
      + (if e.action == SuggestionApplied && e.after.AppliedChange? then [e.after.proposalId] else [])
  }
}
