/**
 What holds of the store in every reachable state, and of the requests that
 are under way.
 */
module Invariants {
  import opened Basics
  import opened Lifecycles
  import opened Polygons
  import opened Records
  import opened Analysis
  import opened Transactions
  import opened Protocol
  import opened Trails
  import opened Growth

  // ---- Each row against its trail ----

  ghost predicate ParcelTracked(row: Option<Parcel>, id: Id, t: seq<AuditEntry>) {
    match row
    case None => t == []
    case Some(p) =>
      && p.id == id && t != [] && |t| == p.version
      && (forall i :: 0 <= i < |t| ==> t[i].after.ParcelImage? && t[i].after.parcel.id == id && t[i].after.parcel.code == p.code)
      && t[|t| - 1].after.parcel.(version := p.version) == p
  }

  ghost predicate ObservationTracked(row: Option<Observation>, id: Id, t: seq<AuditEntry>) {
    match row
    case None => t == []
    case Some(o) => o.id == id && ReplayedObservation(t) == Some(o) && |t| == o.version
  }

  ghost predicate ProposalTracked(row: Option<Proposal>, id: Id, t: seq<AuditEntry>) {
    match row
    case None => t == []
    case Some(p) =>
      && p.id == id && t != [] && ReplayedProposal(t) == Some(Erased(p))
      && t[0].after.ProposalImage? && p.version == t[0].after.proposal.version + |t| - 1
      && ValidProposalState(p.state) && CycleStep(p.state) == (|t| - 1) % 5
      && (p.reviewedBy.Some? <==> |t| - 1 >= 3)
      && p.reviewedBy != Some(p.createdBy)
  }

  ghost predicate ConflictTracked(row: Option<Conflict>, id: Id, t: seq<AuditEntry>) {
    match row
    case None => t == []
    case Some(c) =>
      && c.id == id && t != [] && ReplayedConflict(t) == Some(c)
      && !c.state.UnknownConflictState?
      && (c.resolvedBy.Some? <==> c.state == Resolved || c.state == Closed)
      && |Applications(t)| <= 1
      && (Applications(t) != [] ==> c.state == Resolved || c.state == Closed)
  }

  ghost predicate ParcelsOk(d: Db) {
    forall k: Id :: ParcelTracked(Lookup(d.parcels, k), k, Trail(d.audits, ParcelResource, k))
  }

  ghost predicate ObservationsOk(d: Db) {
    forall k: Id :: ObservationTracked(Lookup(d.observations, k), k, Trail(d.audits, ObservationResource, k))
  }

  ghost predicate ProposalsOk(d: Db) {
    forall k: Id :: ProposalTracked(Lookup(d.proposals, k), k, Trail(d.audits, ProposalResource, k))
  }

  ghost predicate ConflictsOk(d: Db) {
    forall k: Id :: ConflictTracked(Lookup(d.conflicts, k), k, Trail(d.audits, ConflictResource, k))
  }

  // ---- Rows against rows ----

  // A replacement is another observation of the same parcel, set exactly by superseding.
  ghost predicate LinkOk(d: Db, k: Id)
    requires k in d.observations
  {
    var o := d.observations[k];
    && o.parcelId in d.parcels
    && (o.replacedBy.Some? ==>
        && o.state == Superseded && o.replacedBy.value != k && o.replacedBy.value in d.observations
        && d.observations[o.replacedBy.value].parcelId == o.parcelId)
  }

  ghost predicate LinksOk(d: Db) {
    forall k :: k in d.observations ==> LinkOk(d, k)
  }

  // The area delta is measured against the parcel as it was at the base version.
  ghost predicate Grounded(lib: Library, d: Db, p: Proposal) {
    && p.parcelId in d.parcels
    && Parsed(lib.engine, p.boundary).Some?
    && ParcelAt(d.audits, p.parcelId, p.baseVersion).Some?
    && p.areaDelta == Parsed(lib.engine, p.boundary).value.area - ParcelAt(d.audits, p.parcelId, p.baseVersion).value.area
  }

  ghost predicate GroundedOk(lib: Library, d: Db) {
    forall k :: k in d.proposals ==> Grounded(lib, d, d.proposals[k])
  }

  ghost predicate RunOk(d: Db, k: Id)
    requires k in d.runs
  {
    var run := d.runs[k];
    && run.id == k && run.proposalId in d.proposals && Distinct(run.resultIds)
    && (forall i :: 0 <= i < |run.resultIds| ==>
        && run.resultIds[i] in d.conflicts
        && d.conflicts[run.resultIds[i]].proposalId == run.proposalId
        && d.conflicts[run.resultIds[i]].inputHash == run.inputHash)
  }

  ghost predicate SameKey(a: DetectionRun, b: DetectionRun) {
    a.actorId == b.actorId && a.key == b.key
  }

  ghost predicate RunsOk(d: Db) {
    && (forall k :: k in d.runs ==> RunOk(d, k))
    && (forall j, k :: j in d.runs && k in d.runs && SameKey(d.runs[j], d.runs[k]) ==> j == k)
    && (forall j, k, c :: j in d.runs && k in d.runs && c in d.runs[j].resultIds && c in d.runs[k].resultIds ==> j == k)
    && (forall c :: c in d.conflicts ==> exists k :: k in d.runs && c in d.runs[k].resultIds)
  }

  function Origin(d: Db, proposal: Id): Option<Action> {
    var t := Trail(d.audits, ProposalResource, proposal);
    if t == [] then None else Some(t[0].action)
  }

  function AppliedDrafts(d: Db, conflict: Id): seq<Id> {
    Applications(Trail(d.audits, ConflictResource, conflict))
  }

  // Where each proposal came from, and the drafts derived from each conflict.
  ghost function Origins(d: Db): map<Id, Option<Action>> {
    map p | p in d.proposals :: Origin(d, p)
  }

  ghost function Applied(d: Db): map<Id, seq<Id>> {
    map c | c in d.conflicts :: AppliedDrafts(d, c)
  }

  ghost predicate HasSource(applied: map<Id, seq<Id>>, p: Id) {
    exists c :: c in applied && p in applied[c]
  }

  // Derived drafts and applied suggestions correspond one to one.
  ghost predicate OneToOne(origins: map<Id, Option<Action>>, applied: map<Id, seq<Id>>) {
    && (forall p :: p in origins && origins[p] == Some(ProposalDerived) ==> HasSource(applied, p))
    && (forall c, p :: c in applied && p in applied[c] ==> p in origins && origins[p] == Some(ProposalDerived))
    && (forall b, c, p :: b in applied && c in applied && p in applied[b] && p in applied[c] ==> b == c)
  }

  ghost predicate DraftsOk(d: Db) {
    OneToOne(Origins(d), Applied(d))
  }

  ghost predicate StoreOk(lib: Library, d: Db) {
    && ParcelsOk(d) && ObservationsOk(d) && ProposalsOk(d) && ConflictsOk(d)
    && LinksOk(d) && GroundedOk(lib, d) && RunsOk(d) && DraftsOk(d)
  }

  // ---- Requests under way ----

  ghost predicate FreshDraft(lib: Library, d: Db, p: Proposal) {
    p.state == Draft && p.reviewedBy == None && Grounded(lib, d, p)
  }

  ghost predicate ReplacementOk(d: Db, item: Observation, replacement: Option<Id>) {
    replacement.Some? ==>
      && replacement.value != item.id && replacement.value in d.observations
      && d.observations[replacement.value].parcelId == item.parcelId
  }

  // What the service has established about a transaction by the time it commits.
  ghost predicate TxOk(lib: Library, d: Db, tx: Tx, actor: Actor) {
    match tx
    case InsertParcel(p) => p.version == 1
    case UpdateParcel(before, after, _) => KnownParcel(d, before) && after.id == before.id && after.code == before.code
    case InsertObservation(o) => o.version == 1 && o.replacedBy == None && o.parcelId in d.parcels
    case MoveObservation(item, to, replacement, _) =>
      && KnownObservation(d, item) && CanObservationTransition(item.state, to)
      && (to == Superseded <==> replacement.Some?) && ReplacementOk(d, item, replacement)
    case InsertProposal(p) => FreshDraft(lib, d, p)
    case MoveProposal(item, to, _) =>
      KnownProposal(d, item) && CanProposalTransition(item.state, to) && MayMoveProposal(item.createdBy, to, actor.id, actor.role)
    case MoveConflict(item, to) => KnownConflict(d, item) && CanConflictTransition(item.state, to)
    case ApplySuggestion(item, derived) =>
      KnownConflict(d, item) && item.state == ResolutionProposed && FreshDraft(lib, d, derived)
    case RecordRun(items, run, _) =>
      && run.proposalId in d.proposals
      && (forall i :: 0 <= i < |items| ==>
          items[i].proposalId == run.proposalId && items[i].inputHash == run.inputHash
          && items[i].state == Detected && items[i].resolvedBy == None)
  }

  ghost predicate StageOk(lib: Library, d: Db, stage: Stage, actor: Actor) {
    match stage
    case Commit(tx) => TxOk(lib, d, tx, actor)
    case ReadReplacement(item, replacement, _) =>
      KnownObservation(d, item) && CanObservationTransition(item.state, Superseded) && replacement != item.id
    case ReadEvidence(parcel, n, _) =>
      KnownParcel(d, parcel) && parcel.id == n.parcelId && parcel.version == n.baseVersion && Parsed(lib.engine, n.boundary).Some?
    case ReadSource(conflict, _) => KnownConflict(d, conflict) && conflict.state == ResolutionProposed
    case ReadSourceParcel(conflict, source, _) =>
      && KnownConflict(d, conflict) && conflict.state == ResolutionProposed && KnownProposal(d, source)
      && Parsed(lib.engine, conflict.suggestion).Some?
    case FindRun(proposal, _, _) => KnownProposal(d, proposal)
    case ReadDetectionParcel(proposal, _, _) => KnownProposal(d, proposal)
    case ReadNeighbours(proposal, _, _, _) => KnownProposal(d, proposal)
    case _ => true
  }

  ghost predicate SystemOk(lib: Library, s: System) {
    StoreOk(lib, s.db) && forall who :: who in s.clients ==> StageOk(lib, s.db, s.clients[who].stage, s.clients[who].actor)
  }

  // ---- Copies and the real row ----

  lemma CurrentParcelIsKnown(d: Db, id: Id)
    requires ParcelsOk(d) && id in d.parcels
    ensures KnownParcel(d, d.parcels[id]) && d.parcels[id].id == id
  {
    assert ParcelTracked(Lookup(d.parcels, id), id, Trail(d.audits, ParcelResource, id));
  }

  lemma SameVersionIsSameParcel(d: Db, copy: Parcel)
    requires ParcelsOk(d) && KnownParcel(d, copy)
    ensures copy.version <= d.parcels[copy.id].version && copy.code == d.parcels[copy.id].code
    ensures copy.version == d.parcels[copy.id].version ==> copy == d.parcels[copy.id]
  {
    assert ParcelTracked(Lookup(d.parcels, copy.id), copy.id, Trail(d.audits, ParcelResource, copy.id));
  }

  /** If the compare-and-set of a transition succeeds, the row it changes is the
      very copy the client checked, whatever other clients did in between. */
  lemma GuardSeesTheCopy(lib: Library, d: Db, tx: Tx, actor: Actor, ids: Ids)
    requires ParcelsOk(d) && TxOk(lib, d, tx, actor) && Execute(d, tx, actor, ids).Ok?
    ensures tx.MoveProposal? ==> d.proposals[tx.proposal.id] == tx.proposal
    ensures tx.MoveObservation? ==> d.observations[tx.observation.id] == tx.observation
    ensures tx.MoveConflict? || tx.ApplySuggestion? ==> d.conflicts[tx.conflict.id] == tx.conflict
    ensures tx.UpdateParcel? && tx.expected == tx.before.version ==> d.parcels[tx.before.id] == tx.before
  {
    if tx.UpdateParcel? {
      SameVersionIsSameParcel(d, tx.before);
    }
  }

  // ---- Stability under other clients' steps ----

  lemma GroundedIsStable(lib: Library, d: Db, d': Db, p: Proposal)
    requires Later(d, d') && Grounded(lib, d, p)
    ensures Grounded(lib, d', p)
  {
    ParcelAtIsStable(d, d', p.parcelId, p.baseVersion);
  }

  lemma StageOkIsStable(lib: Library, d: Db, d': Db, stage: Stage, actor: Actor)
    requires Later(d, d') && StageOk(lib, d, stage, actor)
    ensures StageOk(lib, d', stage, actor)
  {
    CopiesStayKnown(d, d');
    if stage.Commit? {
      match stage.tx
      case InsertProposal(p) => GroundedIsStable(lib, d, d', p);
      case ApplySuggestion(_, p) => GroundedIsStable(lib, d, d', p);
      case MoveObservation(item, _, replacement, _) =>
        if replacement.Some? {
          assert ObservationLater(d.observations[replacement.value], d'.observations[replacement.value]);
        }
      case RecordRun(_, run, _) => assert run.proposalId in d'.proposals;
      case _ =>
    }
  }
}
