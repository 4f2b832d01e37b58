/**
 The write transactions. Each one either commits a whole new state together
 with its audit entries, or fails and leaves no trace.
 */
module Transactions {
  import opened Basics
  import opened Text
  import opened Lifecycles
  import opened Records

  // What a request asks the store to commit, with the row copies it read before.
  datatype Tx =
    | InsertParcel(parcel: Parcel)
    | UpdateParcel(before: Parcel, after: Parcel, expected: nat)
    | InsertObservation(observation: Observation)
    | MoveObservation(observation: Observation, observationTo: ObservationState, replacement: Option<Id>, note: string)
    | InsertProposal(proposal: Proposal)
    | MoveProposal(proposal: Proposal, proposalTo: ProposalState, rationale: string)
    | MoveConflict(conflict: Conflict, conflictTo: ConflictState)
    | ApplySuggestion(conflict: Conflict, derived: Proposal)
    | RecordRun(items: seq<Conflict>, run: DetectionRun, parcelId: Id)

  datatype Committed = Committed(db: Db, reply: Reply)

  // ---- Row changes ----

  // The columns written by a parcel update; ID, code and version are not among them.
  function OverwrittenParcel(row: Parcel, after: Parcel): Parcel {
    row.(name := after.name, boundary := after.boundary, crs := after.crs, owner := after.owner,
         state := after.state, area := after.area, version := row.version + 1)
  }

  function MovedObservation(row: Observation, to: ObservationState, replacement: Option<Id>, note: string): Observation {
    row.(state := to, version := row.version + 1,
         replacedBy := if replacement.Some? then replacement else row.replacedBy,
         note := if Blank(note) then row.note else note)
  }

  function MovedProposal(row: Proposal, to: ProposalState, rationale: string, actor: Id): Proposal {
    row.(state := to, version := row.version + 1,
         rationale := if rationale == "" then row.rationale else rationale,
         reviewedBy := if IsReviewTransition(to) then Some(actor) else row.reviewedBy)
  }

  function Resolver(to: ConflictState, actor: Id): Option<Id> {
    if to == Resolved || to == Closed then Some(actor) else None
  }

  function MovedConflict(row: Conflict, to: ConflictState, resolver: Option<Id>): Conflict {
    row.(state := to, resolvedBy := if resolver.Some? then resolver else row.resolvedBy)
  }

  // ---- Guards: unique indexes and compare-and-set conditions ----

  predicate ParcelCodeTaken(db: Db, code: string) {
    exists k | k in db.parcels :: db.parcels[k].code == code
  }

  predicate ObservationCodeTaken(db: Db, code: string) {
    exists k | k in db.observations :: db.observations[k].code == code
  }

  predicate RunKeyTaken(db: Db, actorId: Id, key: string) {
    exists k | k in db.runs :: db.runs[k].actorId == actorId && db.runs[k].key == key
  }

  // Observations and parcels compare the version only.
  predicate ParcelMatches(db: Db, id: Id, version: nat) {
    id in db.parcels && db.parcels[id].version == version
  }

  predicate ObservationMatches(db: Db, id: Id, version: nat) {
    id in db.observations && db.observations[id].version == version
  }

  // Proposals compare version and state.
  predicate ProposalMatches(db: Db, id: Id, version: nat, from: ProposalState) {
    id in db.proposals && db.proposals[id].version == version && db.proposals[id].state == from
  }

  // Conflicts have no version: they compare the state only.
  predicate ConflictMatches(db: Db, id: Id, from: ConflictState) {
    id in db.conflicts && db.conflicts[id].state == from
  }

  // ---- Detection results ----

  function ConflictEntry(actor: Actor, parcelId: Id, c: Conflict): AuditEntry {
    Audit(actor, ConflictDetected, ConflictResource, c.id, Some(parcelId), Nothing, ConflictImage(c))
  }

  function InsertConflicts(db: Db, items: seq<Conflict>, ids: seq<Id>, actor: Actor, parcelId: Id): Option<Db> {
    if items == [] then Some(db)
    else
      var n := |items| - 1;
      match InsertConflicts(db, items[..n], ids, actor, parcelId)
      case None => None
      case Some(d) =>
        if |ids| <= n || ids[n] in d.conflicts || Blank(actor.requestId) then None
        else
          var row := items[n].(id := ids[n]);
          Some(d.(conflicts := d.conflicts[ids[n] := row], audits := d.audits + [ConflictEntry(actor, parcelId, row)]))
  }

  function Numbered(items: seq<Conflict>, ids: seq<Id>): seq<Conflict>
    requires |items| <= |ids|
  {
    seq(|items|, i requires 0 <= i < |items| => items[i].(id := ids[i]))
  }

  lemma {:induction false} InsertingNeedsIds(db: Db, items: seq<Conflict>, ids: seq<Id>, actor: Actor, parcelId: Id)
    requires InsertConflicts(db, items, ids, actor, parcelId).Some?
    ensures |items| <= |ids|
  {
    if items != [] {
      InsertingNeedsIds(db, items[..|items| - 1], ids, actor, parcelId);
    }
  }

  // ---- The transactions ----

  function Execute(db: Db, tx: Tx, actor: Actor, ids: Ids): Result<Committed, Error> {
    match tx
    case InsertParcel(parcel) =>
      if ParcelCodeTaken(db, parcel.code) then Err(StateConflict)
      else if ids.row in db.parcels || Blank(actor.requestId) then Err(Internal)
      else
        var row := parcel.(id := ids.row);
        Ok(Committed(
          db.(parcels := db.parcels[row.id := row],
              audits := db.audits + [Audit(actor, ParcelCreated, ParcelResource, row.id, Some(row.id), Nothing, ParcelImage(row))]),
          ParcelReply(row)))

    case UpdateParcel(before, after, expected) =>
      if !ParcelMatches(db, after.id, expected) || Blank(actor.requestId) then Err(Internal)
      else
        Ok(Committed(
          db.(parcels := db.parcels[after.id := OverwrittenParcel(db.parcels[after.id], after)],
              audits := db.audits + [Audit(actor, ParcelUpdated, ParcelResource, after.id, Some(after.id), ParcelImage(before), ParcelImage(after))]),
          ParcelReply(after.(version := expected + 1))))

    case InsertObservation(observation) =>
      if ObservationCodeTaken(db, observation.code) || ids.row in db.observations || Blank(actor.requestId) then Err(Internal)
      else
        var row := observation.(id := ids.row);
        Ok(Committed(
          db.(observations := db.observations[row.id := row],
              audits := db.audits + [Audit(actor, ObservationImported, ObservationResource, row.id, Some(row.parcelId), Nothing, ObservationImage(row))]),
          ObservationReply(row)))

    case MoveObservation(item, to, replacement, note) =>
      if !ObservationMatches(db, item.id, item.version) || Blank(actor.requestId) then Err(StateConflict)
      else
        Ok(Committed(
          db.(observations := db.observations[item.id := MovedObservation(db.observations[item.id], to, replacement, note)],
              audits := db.audits + [Audit(actor, ObservationMoved, ObservationResource, item.id, Some(item.parcelId),
                                           ObservationImage(item), ObservationChange(to, item.version + 1, replacement, note))]),
          ObservationReply(item.(state := to, version := item.version + 1, replacedBy := replacement,
                                 note := if Blank(note) then item.note else note))))

    case InsertProposal(proposal) =>
      if ids.row in db.proposals || Blank(actor.requestId) then Err(Internal)
      else
        var row := proposal.(id := ids.row);
        Ok(Committed(
          db.(proposals := db.proposals[row.id := row],
              audits := db.audits + [Audit(actor, ProposalCreated, ProposalResource, row.id, Some(row.parcelId), Nothing, ProposalImage(row))]),
          ProposalReply(row)))

    case MoveProposal(item, to, rationale) =>
      if !ProposalMatches(db, item.id, item.version, item.state) || Blank(actor.requestId) then Err(StateConflict)
      else
        Ok(Committed(
          db.(proposals := db.proposals[item.id := MovedProposal(db.proposals[item.id], to, rationale, actor.id)],
              audits := db.audits + [Audit(actor, ProposalMoved, ProposalResource, item.id, Some(item.parcelId),
                                           ProposalImage(item), ProposalChange(to, item.version + 1))]),
          ProposalReply(item.(state := to, version := item.version + 1,
                              reviewedBy := if IsReviewTransition(to) then Some(actor.id) else item.reviewedBy))))

    case MoveConflict(item, to) =>
      if !ConflictMatches(db, item.id, item.state) || Blank(actor.requestId) then Err(StateConflict)
      else
        Ok(Committed(
          db.(conflicts := db.conflicts[item.id := MovedConflict(db.conflicts[item.id], to, Resolver(to, actor.id))],
              audits := db.audits + [Audit(actor, ConflictMoved, ConflictResource, item.id, None, ConflictImage(item), ConflictChange(to))]),
          ConflictReply(item.(state := to, resolvedBy := Resolver(to, actor.id)))))

    case ApplySuggestion(item, derived) =>
      if ids.row in db.proposals || !ConflictMatches(db, item.id, item.state) || Blank(actor.requestId) then Err(Internal)
      else
        var row := derived.(id := ids.row);
        Ok(Committed(
          db.(proposals := db.proposals[row.id := row],
              conflicts := db.conflicts[item.id := MovedConflict(db.conflicts[item.id], Resolved, Some(actor.id))],
              audits := db.audits + [
                Audit(actor, ProposalDerived, ProposalResource, row.id, Some(row.parcelId), Nothing, ProposalImage(row)),
                Audit(actor, SuggestionApplied, ConflictResource, item.id, Some(row.id), ConflictImage(item), AppliedChange(Resolved, row.id))]),
          ProposalReply(row)))

    case RecordRun(items, run, parcelId) =>
      match InsertConflicts(db, items, ids.items, actor, parcelId)
      case None => Err(Internal)
      case Some(d) =>
        InsertingNeedsIds(db, items, ids.items, actor, parcelId);
        if RunKeyTaken(d, run.actorId, run.key) || ids.row in d.runs || Blank(actor.requestId) then Err(Internal)
        else
          var row := run.(id := ids.row, resultIds := ids.items[..|items|]);
          Ok(Committed(
            d.(runs := d.runs[row.id := row],
               audits := d.audits + [Audit(actor, DetectionCompleted, RunResource, row.id, Some(row.proposalId), Nothing, RunImage(row))]),
            ConflictsReply(Numbered(items, ids.items))))
  }
}
