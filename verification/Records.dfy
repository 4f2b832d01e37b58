/**
 The tables, the requests of the HTTP contract and the replies. Timestamps are
 left to the clock and do not appear; a tolerance is a number of micrometres.
 */
module Records {
  import opened Basics
  import opened Lifecycles
  import opened Topology
  import opened Polygons

  type Micrometres = nat

  datatype Actor = Actor(id: Id, username: string, role: Role, requestId: string)

  // ---- Rows ----

  datatype Parcel = Parcel(
    id: Id, code: string, name: string, boundary: string, crs: string, area: real,
    version: nat, owner: string, state: string)

  datatype Evidence = Evidence(point: string, observedAt: int, technique: string, accuracy: real, checksum: string)

  datatype Observation = Observation(
    id: Id, parcelId: Id, code: string, evidence: Evidence, state: ObservationState,
    version: nat, replacedBy: Option<Id>, note: string, importedBy: Id)

  datatype Proposal = Proposal(
    id: Id, parcelId: Id, baseVersion: nat, boundary: string, observationIds: seq<Id>,
    tolerance: Micrometres, areaDelta: real, state: ProposalState, rationale: string,
    version: nat, createdBy: Id, reviewedBy: Option<Id>)

  datatype Conflict = Conflict(
    id: Id, proposalId: Id, parcelIds: seq<Id>, kind: FindingKind, geometry: string,
    magnitude: real, inputHash: string, state: ConflictState, suggestion: string,
    resolvedBy: Option<Id>)

  datatype DetectionRun = DetectionRun(
    id: Id, proposalId: Id, actorId: Id, key: string, requestHash: string, inputHash: string, resultIds: seq<Id>)

  // ---- Audit log ----

  datatype Action =
    | ParcelCreated | ParcelUpdated | ObservationImported | ObservationMoved
    | ProposalCreated | ProposalDerived | ProposalMoved
    | ConflictDetected | ConflictMoved | SuggestionApplied | DetectionCompleted

  datatype Resource = ParcelResource | ObservationResource | ProposalResource | ConflictResource | RunResource

  // The decoded before and after images; Nothing is the empty object.
  datatype Image =
    | Nothing
    | ParcelImage(parcel: Parcel)
    | ObservationImage(observation: Observation)
    | ProposalImage(proposal: Proposal)
    | ConflictImage(conflict: Conflict)
    | RunImage(run: DetectionRun)
    | ObservationChange(observationState: ObservationState, version: nat, replacedBy: Option<Id>, note: string)
    | ProposalChange(proposalState: ProposalState, version: nat)
    | ConflictChange(conflictState: ConflictState)
    | AppliedChange(conflictState: ConflictState, proposalId: Id)

  datatype AuditEntry = AuditEntry(
    actorId: Id, actorName: string, action: Action, resource: Resource, resourceId: Id,
    related: Option<Id>, requestId: string, before: Image, after: Image)

  function Audit(actor: Actor, action: Action, resource: Resource, id: Id, related: Option<Id>, before: Image, after: Image): AuditEntry {
    AuditEntry(actor.id, actor.username, action, resource, id, related, actor.requestId, before, after)
  }

  datatype Db = Db(
    parcels: map<Id, Parcel>, observations: map<Id, Observation>, proposals: map<Id, Proposal>,
    conflicts: map<Id, Conflict>, runs: map<Id, DetectionRun>, audits: seq<AuditEntry>)

  const EMPTY_DB := Db(map[], map[], map[], map[], map[], [])

  // ---- Requests and replies ----

  datatype NewParcel = NewParcel(code: string, name: string, boundary: string, crs: string, owner: string, state: string)

  datatype ParcelPatch = ParcelPatch(
    name: Option<string>, boundary: Option<string>, crs: Option<string>, owner: Option<string>,
    state: Option<string>, version: Option<nat>)

  // A missing state is imported as Usable.
  datatype NewObservation = NewObservation(
    parcelId: Id, code: string, evidence: Evidence, state: Option<ObservationState>, note: string)

  datatype ObservationMove = ObservationMove(to: ObservationState, version: nat, replacement: Option<Id>, note: string)

  datatype NewProposal = NewProposal(
    parcelId: Id, baseVersion: nat, boundary: string, observationIds: seq<Id>, tolerance: Micrometres, rationale: string)

  datatype ProposalMove = ProposalMove(to: ProposalState, version: nat, rationale: string)

  datatype Request =
    | CreateParcelRequest(newParcel: NewParcel)
    | UpdateParcelRequest(id: Id, patch: ParcelPatch)
    | ImportObservationRequest(newObservation: NewObservation)
    | MoveObservationRequest(id: Id, observationMove: ObservationMove)
    | CreateProposalRequest(newProposal: NewProposal)
    | MoveProposalRequest(id: Id, proposalMove: ProposalMove)
    | DetectRequest(proposalId: Id, tolerance: Micrometres, key: string)
    | MoveConflictRequest(id: Id, conflictTo: ConflictState)
    | ApplyRequest(id: Id, rationale: string)

  datatype Error = InvalidInput | GeometryRejected | NotFound | StateConflict | Forbidden | Internal

  datatype Reply =
    | ParcelReply(parcel: Parcel)
    | ObservationReply(observation: Observation)
    | ProposalReply(proposal: Proposal)
    | ConflictReply(conflict: Conflict)
    | ConflictsReply(conflicts: seq<Conflict>)
    | Failure(error: Error)

  // Identifiers the database hands out to one transaction: the inserted row, and the inserted conflicts.
  datatype Ids = Ids(row: Id, items: seq<Id>)

  // Code outside this model: the geometry engine, SHA-256, the CRS allow-list, upper-casing, point parsing.
  datatype Library = Library(
    engine: Engine, digest: string -> string, crsAccepted: string -> bool,
    upper: string -> string, pointAccepted: string -> bool)
}
