/**
 Requests as small programs: each stage makes one look-up outside any
 transaction, or commits. Running one client alone gives the atomic service;
 running many, stage by stage, gives every interleaving.
 */
module Protocol {
  import opened Basics
  import opened Text
  import opened ParcelIds
  import opened Lifecycles
  import opened Polygons
  import opened Records
  import opened Analysis
  import opened Transactions

  // Where a request is: what it has read so far, and what it does next.
  datatype Stage =
    | Start
    | ReadReplacement(observation: Observation, replacement: Id, note: string)
    | ReadEvidence(parcel: Parcel, newProposal: NewProposal, next: nat)
    | ReadSource(conflict: Conflict, rationale: string)
    | ReadSourceParcel(conflict: Conflict, proposal: Proposal, rationale: string)
    | FindRun(proposal: Proposal, tolerance: Micrometres, key: string)
    | ReadDetectionParcel(proposal: Proposal, tolerance: Micrometres, key: string)
    | ReadNeighbours(proposal: Proposal, parcel: Parcel, tolerance: Micrometres, key: string)
    | Commit(tx: Tx)
    | FindRunAgain(hash: string, key: string)
    | ReplayRun(run: DetectionRun)
    | Finished(reply: Reply)

  datatype Client = Client(request: Request, actor: Actor, stage: Stage)

  function Fail(error: Error): Stage { Finished(Failure(error)) }

  // ---- Parcels ----

  function StartCreateParcel(lib: Library, n: NewParcel): Stage {
    if !lib.crsAccepted(n.crs) then Fail(GeometryRejected)
    else
      match Parsed(lib.engine, n.boundary)
      case None => Fail(GeometryRejected)
      case Some(polygon) =>
        Commit(InsertParcel(Parcel(0, TrimSpace(n.code), TrimSpace(n.name), n.boundary, lib.upper(TrimSpace(n.crs)),
                                   polygon.area, 1, TrimSpace(n.owner), if n.state == "" then "active" else n.state)))
  }

  function PatchedTexts(before: Parcel, patch: ParcelPatch): Parcel {
    before.(
      name := if patch.name.Some? then TrimSpace(patch.name.value) else before.name,
      owner := if patch.owner.Some? then TrimSpace(patch.owner.value) else before.owner,
      state := if patch.state.Some? then patch.state.value else before.state)
  }

  // The row copy with the requested fields replaced, once they are accepted.
  function Patched(lib: Library, before: Parcel, patch: ParcelPatch): Option<Parcel> {
    var texts := PatchedTexts(before, patch);
    if patch.crs.Some? && !lib.crsAccepted(patch.crs.value) then None
    else
      var placed := if patch.crs.Some? then texts.(crs := lib.upper(TrimSpace(patch.crs.value))) else texts;
      if patch.boundary.None? then Some(placed)
      else
        match Parsed(lib.engine, patch.boundary.value)
        case None => None
        case Some(polygon) => Some(placed.(boundary := patch.boundary.value, area := polygon.area))
  }

  function ExpectedVersion(before: Parcel, patch: ParcelPatch): nat {
    if patch.version.Some? then patch.version.value else before.version
  }

  function AfterReadingParcel(lib: Library, before: Parcel, patch: ParcelPatch): Stage {
    match Patched(lib, before, patch)
    case None => Fail(GeometryRejected)
    case Some(after) => Commit(UpdateParcel(before, after, ExpectedVersion(before, patch)))
  }

  // ---- Observations ----

  function AfterFindingParcel(lib: Library, n: NewObservation, actor: Actor): Stage {
    if !lib.pointAccepted(n.evidence.point) then Fail(GeometryRejected)
    else
      Commit(InsertObservation(Observation(
        0, n.parcelId, TrimSpace(n.code),
        n.evidence.(technique := TrimSpace(n.evidence.technique), checksum := TrimSpace(n.evidence.checksum)),
        if n.state.None? then Usable else n.state.value, 1, None, TrimSpace(n.note), actor.id)))
  }

  predicate MayMoveObservation(role: Role) {
    role == Surveyor || role == GisAnalyst || role == Admin
  }

  function AfterReadingObservation(item: Observation, m: ObservationMove, actor: Actor): Stage {
    if item.version != m.version then Fail(StateConflict)
    else if !CanObservationTransition(item.state, m.to) then Fail(StateConflict)
    else if !MayMoveObservation(actor.role) then Fail(Forbidden)
    else if m.to == Superseded then
      if m.replacement.None? || m.replacement.value == item.id then Fail(InvalidInput)
      else ReadReplacement(item, m.replacement.value, TrimSpace(m.note))
    else if m.replacement.Some? then Fail(InvalidInput)
    else Commit(MoveObservation(item, m.to, None, TrimSpace(m.note)))
  }

  function AfterReadingReplacement(item: Observation, replacement: Observation, replacementId: Id, note: string): Stage {
    if replacement.parcelId != item.parcelId || replacement.state == Superseded then Fail(StateConflict)
    else Commit(MoveObservation(item, Superseded, Some(replacementId), note))
  }

  // ---- Proposals ----

  function AfterReadingBaseParcel(lib: Library, parcel: Parcel, n: NewProposal): Stage {
    if n.baseVersion != parcel.version then Fail(StateConflict)
    else if Parsed(lib.engine, n.boundary).None? then Fail(GeometryRejected)
    else ReadEvidence(parcel, n, 0)
  }

  function CreatedProposal(lib: Library, parcel: Parcel, n: NewProposal, actor: Actor): Proposal {
    var area := match Parsed(lib.engine, n.boundary) case None => 0.0 case Some(polygon) => polygon.area;
    Proposal(0, n.parcelId, n.baseVersion, n.boundary, n.observationIds, n.tolerance,
             area - parcel.area, Draft, TrimSpace(n.rationale), 1, actor.id, None)
  }

  // The evidence is checked one observation at a time; then the draft is inserted.
  function AfterReadingEvidence(lib: Library, db: Db, parcel: Parcel, n: NewProposal, next: nat, actor: Actor): Stage {
    if next >= |n.observationIds| then Commit(InsertProposal(CreatedProposal(lib, parcel, n, actor)))
    else
      var id := n.observationIds[next];
      if id in db.observations && db.observations[id].parcelId == n.parcelId then ReadEvidence(parcel, n, next + 1)
      else Fail(InvalidInput)
  }

  function AfterReadingProposal(item: Proposal, m: ProposalMove, actor: Actor): Stage {
    if !ValidProposalState(m.to) || !CanProposalTransition(item.state, m.to) then Fail(StateConflict)
    else if !MayMoveProposal(item.createdBy, m.to, actor.id, actor.role) then Fail(Forbidden)
    else Commit(MoveProposal(item, m.to, m.rationale))
  }

  // ---- Conflicts ----

  function AfterReadingConflict(item: Conflict, to: ConflictState): Stage {
    if !CanConflictTransition(item.state, to) then Fail(StateConflict) else Commit(MoveConflict(item, to))
  }

  function DerivedProposal(lib: Library, conflict: Conflict, source: Proposal, parcel: Parcel, rationale: string, actor: Actor): Proposal {
    var area := match Parsed(lib.engine, conflict.suggestion) case None => 0.0 case Some(polygon) => polygon.area;
    Proposal(0, source.parcelId, parcel.version, conflict.suggestion, source.observationIds, source.tolerance,
             area - parcel.area, Draft,
             if Blank(rationale) then "Applied deterministic suggestion from topology conflict " + Decimal(conflict.id) + "."
             else TrimSpace(rationale),
             source.version + 1, actor.id, None)
  }

  function AfterReadingSource(lib: Library, conflict: Conflict, source: Proposal, rationale: string): Stage {
    if conflict.suggestion == "" then Fail(StateConflict)
    else if Parsed(lib.engine, conflict.suggestion).None? then Fail(Internal)
    else ReadSourceParcel(conflict, source, rationale)
  }

  // ---- Detection ----

  predicate KeyAccepted(key: string) {
    1 <= Utf8Length(TrimSpace(key)) <= 128
  }

  function RunOf(db: Db, actorId: Id, key: string): Option<DetectionRun> {
    var matching := set k | k in db.runs && db.runs[k].actorId == actorId && db.runs[k].key == key;
    if matching == {} then None else Some(db.runs[Ascending(matching)[0]])
  }

  // Active parcels of one coordinate system, by ascending ID, without the given one.
  function ActiveNeighbours(db: Db, crs: string, excluded: Id): seq<Parcel> {
    var ids := Ascending(set k | k in db.parcels && db.parcels[k].crs == crs && db.parcels[k].state == "active" && k != excluded);
    seq(|ids|, i requires 0 <= i < |ids| => if ids[i] in db.parcels then db.parcels[ids[i]] else Parcel(0, "", "", "", "", 0.0, 0, "", ""))
  }

  function AfterReadingNeighbours(lib: Library, proposal: Proposal, parcel: Parcel, neighbours: seq<Parcel>,
                                  tolerance: Micrometres, key: string, actor: Actor): Stage {
    match Compute(lib, parcel.boundary, proposal.boundary, neighbours, tolerance)
    case Err(error) => Fail(error)
    case Ok(outcome) =>
      var inputHash := InputHash(lib, parcel, proposal, neighbours, tolerance);
      Commit(RecordRun(NewConflicts(parcel, proposal, inputHash, outcome),
                       DetectionRun(0, proposal.id, actor.id, key, RequestHash(lib, proposal.id, tolerance), inputHash, []),
                       parcel.id))
  }

  // The listed conflicts in list order; None when one is missing.
  function ConflictsByIds(table: map<Id, Conflict>, ids: seq<Id>): Option<seq<Conflict>> {
    if ids == [] then Some([])
    else
      var n := |ids| - 1;
      var front := ConflictsByIds(table, ids[..n]);
      if front.None? || ids[n] !in table then None else Some(front.value + [table[ids[n]]])
  }

  // A stored run answers the request if it was made for the same request.
  function AfterFindingRun(run: Option<DetectionRun>, hash: string, otherwise: Stage): Stage {
    match run
    case None => otherwise
    case Some(r) => if r.requestHash != hash then Fail(StateConflict) else ReplayRun(r)
  }

  function Replayed(db: Db, run: DetectionRun): Stage {
    match ConflictsByIds(db.conflicts, run.resultIds)
    case None => Fail(Internal)
    case Some(items) => Finished(ConflictsReply(items))
  }

  // ---- One stage ----

  function Started(lib: Library, db: Db, q: Request, actor: Actor): Stage {
    match q
    case CreateParcelRequest(n) => StartCreateParcel(lib, n)
    case UpdateParcelRequest(id, patch) =>
      if id in db.parcels then AfterReadingParcel(lib, db.parcels[id], patch) else Fail(NotFound)
    case ImportObservationRequest(n) =>
      if n.parcelId in db.parcels then AfterFindingParcel(lib, n, actor) else Fail(NotFound)
    case MoveObservationRequest(id, m) =>
      if id in db.observations then AfterReadingObservation(db.observations[id], m, actor) else Fail(NotFound)
    case CreateProposalRequest(n) =>
      if n.parcelId in db.parcels then AfterReadingBaseParcel(lib, db.parcels[n.parcelId], n) else Fail(NotFound)
    case MoveProposalRequest(id, m) =>
      if id in db.proposals then AfterReadingProposal(db.proposals[id], m, actor) else Fail(NotFound)
    case DetectRequest(proposalId, tolerance, key) =>
      if !KeyAccepted(key) then Fail(InvalidInput)
      else if proposalId in db.proposals then
        FindRun(db.proposals[proposalId], EffectiveTolerance(tolerance, db.proposals[proposalId]), TrimSpace(key))
      else Fail(NotFound)
    case MoveConflictRequest(id, to) =>
      if id in db.conflicts then AfterReadingConflict(db.conflicts[id], to) else Fail(NotFound)
    case ApplyRequest(id, rationale) =>
      if actor.role != Reviewer && actor.role != Admin then Fail(Forbidden)
      else if id !in db.conflicts then Fail(NotFound)
      else if db.conflicts[id].state != ResolutionProposed then Fail(StateConflict)
      else ReadSource(db.conflicts[id], rationale)
  }

  // A failed detection looks for the run that may have beaten it to the key.
  function Committing(db: Db, tx: Tx, actor: Actor, ids: Ids): (Db, Stage) {
    match Execute(db, tx, actor, ids)
    case Ok(done) => (done.db, Finished(done.reply))
    case Err(error) => (db, if tx.RecordRun? then FindRunAgain(tx.run.requestHash, tx.run.key) else Fail(error))
  }

  // One look-up outside a transaction.
  function Reading(lib: Library, db: Db, c: Client): Stage {
    match c.stage
    case Start => Started(lib, db, c.request, c.actor)
    case ReadReplacement(item, id, note) =>
      if id in db.observations then AfterReadingReplacement(item, db.observations[id], id, note) else Fail(NotFound)
    case ReadEvidence(parcel, n, next) => AfterReadingEvidence(lib, db, parcel, n, next, c.actor)
    case ReadSource(conflict, rationale) =>
      if conflict.proposalId in db.proposals then AfterReadingSource(lib, conflict, db.proposals[conflict.proposalId], rationale)
      else Fail(NotFound)
    case ReadSourceParcel(conflict, source, rationale) =>
      if source.parcelId in db.parcels then
        Commit(ApplySuggestion(conflict, DerivedProposal(lib, conflict, source, db.parcels[source.parcelId], rationale, c.actor)))
      else Fail(NotFound)
    case FindRun(proposal, tolerance, key) =>
      AfterFindingRun(RunOf(db, c.actor.id, key), RequestHash(lib, proposal.id, tolerance), ReadDetectionParcel(proposal, tolerance, key))
    case ReadDetectionParcel(proposal, tolerance, key) =>
      if proposal.parcelId in db.parcels then ReadNeighbours(proposal, db.parcels[proposal.parcelId], tolerance, key)
      else Fail(NotFound)
    case ReadNeighbours(proposal, parcel, tolerance, key) =>
      AfterReadingNeighbours(lib, proposal, parcel, ActiveNeighbours(db, parcel.crs, parcel.id), tolerance, key, c.actor)
    case FindRunAgain(hash, key) => AfterFindingRun(RunOf(db, c.actor.id, key), hash, Fail(Internal))
    case ReplayRun(run) => Replayed(db, run)
    case Commit(_) => c.stage
    case Finished(_) => c.stage
  }

  function Step(lib: Library, db: Db, c: Client, ids: Ids): (Db, Client) {
    if c.stage.Commit? then
      var (db', stage') := Committing(db, c.stage.tx, c.actor, ids);
      (db', c.(stage := stage'))
    else
      (db, c.(stage := Reading(lib, db, c)))
  }

  // ---- A client alone ----

  function Remaining(c: Client): nat {
    match c.stage
    case Start => 10 + (if c.request.CreateProposalRequest? then |c.request.newProposal.observationIds| else 0)
    case ReadEvidence(_, n, next) => if next < |n.observationIds| then 6 + |n.observationIds| - next else 6
    case FindRun(_, _, _) => 8
    case ReadDetectionParcel(_, _, _) => 7
    case ReadSource(_, _) => 7
    case ReadReplacement(_, _, _) => 6
    case ReadSourceParcel(_, _, _) => 6
    case ReadNeighbours(_, _, _, _) => 6
    case Commit(_) => 5
    case FindRunAgain(_, _) => 4
    case ReplayRun(_) => 3
    case Finished(_) => 0
  }

  lemma StartRunsOut(lib: Library, db: Db, c: Client)
    requires c.stage.Start?
    ensures Remaining(c.(stage := Started(lib, db, c.request, c.actor))) < Remaining(c)
  {
    hide Parsed, Patched, KeyAccepted, MayMoveProposal, CanProposalTransition, CanConflictTransition, CanObservationTransition;
  }

  lemma StepsRunOut(lib: Library, db: Db, c: Client, ids: Ids)
    requires !c.stage.Finished?
    ensures Remaining(Step(lib, db, c, ids).1) < Remaining(c)
  {
    hide Started, Execute, Compute, InputHash, RequestHash, NewConflicts, RunOf, ActiveNeighbours, ConflictsByIds, Parsed, DerivedProposal, CreatedProposal;
    if c.stage.Start? {
      StartRunsOut(lib, db, c);
    }
  }

  /** The whole request with nobody else on the store: the atomic service. */
  function RunAlone(lib: Library, db: Db, c: Client, ids: Ids): (end: (Db, Client))
    ensures end.1.stage.Finished?
    decreases Remaining(c)
  {
    if c.stage.Finished? then (db, c)
    else
      StepsRunOut(lib, db, c, ids);
      var (db', c') := Step(lib, db, c, ids);
      RunAlone(lib, db', c', ids)
  }

  function Serve(lib: Library, db: Db, request: Request, actor: Actor, ids: Ids): (Db, Reply) {
    var (db', c) := RunAlone(lib, db, Client(request, actor, Start), ids);
    (db', c.stage.reply)
  }

  // ---- Many clients ----

  datatype System = System(db: Db, clients: map<nat, Client>)

  datatype Event = Arrive(who: nat, request: Request, actor: Actor) | Act(who: nat, ids: Ids)

  predicate Busy(s: System, who: nat) {
    who in s.clients && !s.clients[who].stage.Finished?
  }

  function Apply(lib: Library, s: System, event: Event): System {
    match event
    case Arrive(who, request, actor) =>
      if who in s.clients then s else s.(clients := s.clients[who := Client(request, actor, Start)])
    case Act(who, ids) =>
      if !Busy(s, who) then s
      else
        var (db', c') := Step(lib, s.db, s.clients[who], ids);
        System(db', s.clients[who := c'])
  }

  // The state reached by a sequence of arrivals and single stages, in any order.
  function After(lib: Library, events: seq<Event>): System {
    if events == [] then System(EMPTY_DB, map[])
    else Apply(lib, After(lib, events[..|events| - 1]), events[|events| - 1])
  }
}
