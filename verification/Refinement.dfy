/**
 Refinement to atomic requests: a committing request does what the whole
 request would do if it ran at once at that moment, exactly when the rows it
 relied on without guarding them are still current.
 */
module Refinement {
  import opened Basics
  import Text
  import opened Lifecycles
  import opened Polygons
  import opened Records
  import opened Analysis
  import opened Transactions
  import opened Protocol
  import opened Trails
  import opened Growth
  import opened Invariants
  import opened Interleaving

  // ---- Where a pending transaction comes from ----

  ghost predicate EvidenceOk(d: Db, n: NewProposal, upTo: nat) {
    forall i :: 0 <= i < upTo && i < |n.observationIds| ==>
      n.observationIds[i] in d.observations && d.observations[n.observationIds[i]].parcelId == n.parcelId
  }

  ghost predicate BaseOk(lib: Library, d: Db, n: NewProposal) {
    && n.parcelId in d.parcels && ParcelAt(d.audits, n.parcelId, n.baseVersion).Some?
    && Parsed(lib.engine, n.boundary).Some?
  }

  ghost predicate SourceOk(lib: Library, c: Client, id: Id, rationale: string, conflict: Conflict) {
    && c.request == ApplyRequest(id, rationale) && conflict.id == id && conflict.state == ResolutionProposed
    && (c.actor.role == Reviewer || c.actor.role == Admin)
  }

  // The draft was built from some version of the source and some version of the parcel.
  ghost predicate DerivedOk(lib: Library, d: Db, actor: Actor, conflict: Conflict, derived: Proposal, rationale: string) {
    && conflict.suggestion != "" && Parsed(lib.engine, conflict.suggestion).Some?
    && conflict.proposalId in d.proposals && 0 < derived.version <= d.proposals[conflict.proposalId].version + 1
    && var source := d.proposals[conflict.proposalId].(version := derived.version - 1);
       var parcel := ParcelAt(d.audits, source.parcelId, derived.baseVersion);
       parcel.Some? && derived == DerivedProposal(lib, conflict, source, parcel.value, rationale, actor)
  }

  ghost predicate CommitFromRequest(lib: Library, d: Db, c: Client, tx: Tx) {
    match c.request
    case CreateParcelRequest(n) => StartCreateParcel(lib, n) == Commit(tx)
    case UpdateParcelRequest(id, patch) =>
      tx.UpdateParcel? && tx.before.id == id && AfterReadingParcel(lib, tx.before, patch) == Commit(tx)
    case ImportObservationRequest(n) => n.parcelId in d.parcels && AfterFindingParcel(lib, n, c.actor) == Commit(tx)
    case MoveObservationRequest(id, m) =>
      && tx.MoveObservation? && tx.observation.id == id
      && if m.to == Superseded then
           && AfterReadingObservation(tx.observation, m, c.actor).ReadReplacement?
           && tx == MoveObservation(tx.observation, Superseded, m.replacement, Text.TrimSpace(m.note))
         else AfterReadingObservation(tx.observation, m, c.actor) == Commit(tx)
    case CreateProposalRequest(n) =>
      && BaseOk(lib, d, n) && EvidenceOk(d, n, |n.observationIds|)
      && tx == InsertProposal(CreatedProposal(lib, ParcelAt(d.audits, n.parcelId, n.baseVersion).value, n, c.actor))
    case MoveProposalRequest(id, m) =>
      tx.MoveProposal? && tx.proposal.id == id && AfterReadingProposal(tx.proposal, m, c.actor) == Commit(tx)
    case MoveConflictRequest(id, to) =>
      tx.MoveConflict? && tx.conflict.id == id && AfterReadingConflict(tx.conflict, to) == Commit(tx)
    case ApplyRequest(id, rationale) =>
      && tx.ApplySuggestion? && SourceOk(lib, c, id, rationale, tx.conflict)
      && DerivedOk(lib, d, c.actor, tx.conflict, tx.derived, rationale)
    case DetectRequest(_, _, _) => tx.RecordRun?
  }

  ghost predicate FromRequest(lib: Library, d: Db, c: Client) {
    match c.stage
    case Commit(tx) => CommitFromRequest(lib, d, c, tx)
    case ReadReplacement(item, replacement, note) =>
      && c.request.MoveObservationRequest? && c.request.id == item.id && c.request.observationMove.to == Superseded
      && AfterReadingObservation(item, c.request.observationMove, c.actor) == c.stage
    case ReadEvidence(parcel, n, next) =>
      && c.request == CreateProposalRequest(n) && BaseOk(lib, d, n) && EvidenceOk(d, n, next)
      && ParcelAt(d.audits, n.parcelId, n.baseVersion).value == parcel
    case ReadSource(conflict, rationale) => c.request.ApplyRequest? && SourceOk(lib, c, c.request.id, rationale, conflict)
    case ReadSourceParcel(conflict, source, rationale) =>
      && c.request.ApplyRequest? && SourceOk(lib, c, c.request.id, rationale, conflict)
      && conflict.suggestion != "" && source.id == conflict.proposalId
    case FindRun(_, _, _) => c.request.DetectRequest?
    case ReadDetectionParcel(_, _, _) => c.request.DetectRequest?
    case ReadNeighbours(_, _, _, _) => c.request.DetectRequest?
    case _ => true
  }

  lemma StartedFromRequest(lib: Library, d: Db, q: Request, actor: Actor)
    requires ParcelsOk(d) && ObservationsOk(d) && ProposalsOk(d) && ConflictsOk(d)
    ensures FromRequest(lib, d, Client(q, actor, Started(lib, d, q, actor)))
  {
    hide Trail, ParcelsOk, ObservationsOk, ProposalsOk, ConflictsOk, KeyAccepted, Patched;
    match q
    case UpdateParcelRequest(id, _) =>
      if id in d.parcels { CurrentParcelIsKnown(d, id); }
    case CreateProposalRequest(n) =>
      if n.parcelId in d.parcels { CurrentParcelIsKnown(d, n.parcelId); }
    case MoveObservationRequest(id, _) => RowIds(d, id);
    case MoveProposalRequest(id, _) => RowIds(d, id);
    case MoveConflictRequest(id, _) => RowIds(d, id);
    case ApplyRequest(id, _) => RowIds(d, id);
    case _ =>
  }

  lemma EvidenceFromRequest(lib: Library, d: Db, c: Client)
    requires c.stage.ReadEvidence? && FromRequest(lib, d, c)
    ensures FromRequest(lib, d, c.(stage := Reading(lib, d, c)))
  {
    hide Trail;
  }

  lemma DerivedFromRequest(lib: Library, d: Db, c: Client)
    requires StoreOk(lib, d) && c.stage.ReadSourceParcel? && StageOk(lib, d, c.stage, c.actor) && FromRequest(lib, d, c)
    ensures FromRequest(lib, d, c.(stage := Reading(lib, d, c)))
  {
    hide Trail, StoreOk, ParcelsOk;
    var source, conflict := c.stage.proposal, c.stage.conflict;
    if source.parcelId in d.parcels {
      assert ParcelsOk(d) by { OpenStore(lib, d); }
      CurrentParcelIsKnown(d, source.parcelId);
      var parcel := d.parcels[source.parcelId];
      var derived := DerivedProposal(lib, conflict, source, parcel, c.stage.rationale, c.actor);
      assert ProposalLater(source, d.proposals[conflict.proposalId]);
      var source' := d.proposals[conflict.proposalId].(version := source.version);
      assert derived == DerivedProposal(lib, conflict, source', parcel, c.stage.rationale, c.actor);
    }
  }

  lemma ReplacementFromRequest(lib: Library, d: Db, c: Client)
    requires c.stage.ReadReplacement? && FromRequest(lib, d, c)
    ensures FromRequest(lib, d, c.(stage := Reading(lib, d, c)))
  {
  }

  lemma SourceFromRequest(lib: Library, d: Db, c: Client)
    requires ObservationsOk(d) && ProposalsOk(d) && ConflictsOk(d) && c.stage.ReadSource? && FromRequest(lib, d, c)
    ensures FromRequest(lib, d, c.(stage := Reading(lib, d, c)))
  {
    hide Trail, ObservationsOk, ProposalsOk, ConflictsOk;
    RowIds(d, c.stage.conflict.proposalId);
  }

  lemma DetectionFromRequest(lib: Library, d: Db, c: Client)
    requires c.stage.FindRun? || c.stage.ReadDetectionParcel? || c.stage.ReadNeighbours? || c.stage.FindRunAgain? || c.stage.ReplayRun? || c.stage.Finished?
    requires FromRequest(lib, d, c)
    ensures FromRequest(lib, d, c.(stage := Reading(lib, d, c)))
  {
    hide Compute, InputHash, RequestHash, NewConflicts, RunOf, ActiveNeighbours, ConflictsByIds;
  }

  lemma ReadingFromRequest(lib: Library, d: Db, c: Client)
    requires StoreOk(lib, d) && StageOk(lib, d, c.stage, c.actor) && FromRequest(lib, d, c) && !c.stage.Commit?
    ensures FromRequest(lib, d, c.(stage := Reading(lib, d, c)))
  {
    hide StoreOk, ParcelsOk, ObservationsOk, ProposalsOk, ConflictsOk, FromRequest, StageOk, Started;
    OpenStore(lib, d);
    match c.stage
    case Start =>
      StartedFromRequest(lib, d, c.request, c.actor);
      assert c.(stage := Reading(lib, d, c)) == Client(c.request, c.actor, Started(lib, d, c.request, c.actor));
    case ReadEvidence(_, _, _) => EvidenceFromRequest(lib, d, c);
    case ReadSource(_, _) => SourceFromRequest(lib, d, c);
    case ReadSourceParcel(_, _, _) => DerivedFromRequest(lib, d, c);
    case ReadReplacement(_, _, _) => ReplacementFromRequest(lib, d, c);
    case _ => DetectionFromRequest(lib, d, c);
  }

  lemma FromRequestIsStable(lib: Library, d: Db, d': Db, c: Client)
    requires Later(d, d') && FromRequest(lib, d, c)
    ensures FromRequest(lib, d', c)
  {
    hide Trail;
    match c.request
    case CreateProposalRequest(n) =>
      if BaseOk(lib, d, n) {
        ParcelAtIsStable(d, d', n.parcelId, n.baseVersion);
      }
      forall i | 0 <= i < |n.observationIds| && n.observationIds[i] in d.observations
        ensures n.observationIds[i] in d'.observations
        ensures d'.observations[n.observationIds[i]].parcelId == d.observations[n.observationIds[i]].parcelId
      {
        assert ObservationLater(d.observations[n.observationIds[i]], d'.observations[n.observationIds[i]]);
      }
    case ApplyRequest(id, rationale) =>
      if c.stage.Commit? && CommitFromRequest(lib, d, c, c.stage.tx) {
        var tx := c.stage.tx;
        var parcelId := d.proposals[tx.conflict.proposalId].parcelId;
        ParcelAtIsStable(d, d', parcelId, tx.derived.baseVersion);
        assert ProposalLater(d.proposals[tx.conflict.proposalId], d'.proposals[tx.conflict.proposalId]);
      }
    case _ =>
  }

  ghost predicate AllFromRequests(lib: Library, s: System) {
    forall who :: who in s.clients ==> FromRequest(lib, s.db, s.clients[who])
  }

  lemma NewcomerFromRequest(lib: Library, d: Db, request: Request, actor: Actor)
    ensures FromRequest(lib, d, Client(request, actor, Start))
  {
  }

  lemma FinishedFromRequest(lib: Library, d: Db, c: Client)
    requires c.stage.Finished? || c.stage.FindRunAgain?
    ensures FromRequest(lib, d, c)
  {
  }

  lemma EventFromRequests(lib: Library, s: System, event: Event)
    requires SystemOk(lib, s) && AllFromRequests(lib, s)
    ensures AllFromRequests(lib, Apply(lib, s, event))
  {
    hide StoreOk, Reading, FromRequest, Execute;
    EventIsOk(lib, s, event);
    var s' := Apply(lib, s, event);
    match event
    case Arrive(who, request, actor) =>
      if who !in s.clients {
        NewcomerFromRequest(lib, s.db, request, actor);
      }
    case Act(who, ids) =>
      if Busy(s, who) {
        var c := s.clients[who];
        if c.stage.Commit? {
          FinishedFromRequest(lib, s'.db, s'.clients[who]);
        } else {
          ReadingFromRequest(lib, s.db, c);
        }
        forall other | other in s'.clients ensures FromRequest(lib, s'.db, s'.clients[other]) {
          if other != who {
            FromRequestIsStable(lib, s.db, s'.db, s.clients[other]);
          }
        }
      }
  }

  lemma {:induction false} AlwaysFromRequests(lib: Library, events: seq<Event>)
    ensures AllFromRequests(lib, After(lib, events))
  {
    hide SystemOk, FromRequest, Apply;
    if events != [] {
      var front := events[..|events| - 1];
      AlwaysFromRequests(lib, front);
      AlwaysOk(lib, front);
      EventFromRequests(lib, After(lib, front), events[|events| - 1]);
    }
  }

  // ---- Running a request at once ----

  lemma RunReading(lib: Library, d: Db, c: Client, ids: Ids)
    requires !c.stage.Finished? && !c.stage.Commit?
    ensures RunAlone(lib, d, c, ids) == RunAlone(lib, d, c.(stage := Reading(lib, d, c)), ids)
    ensures Reading(lib, d, c).Finished? ==> RunAlone(lib, d, c, ids) == (d, c.(stage := Reading(lib, d, c)))
  {
    hide Reading;
  }

  lemma RunCommit(lib: Library, d: Db, c: Client, ids: Ids)
    requires c.stage.Commit?
    ensures var e := Execute(d, c.stage.tx, c.actor, ids);
            && (e.Ok? ==> RunAlone(lib, d, c, ids) == (e.value.db, c.(stage := Finished(e.value.reply))))
            && (e.Err? && !c.stage.tx.RecordRun? ==> RunAlone(lib, d, c, ids) == (d, c.(stage := Fail(e.error))))
  {
    hide Execute;
  }

  // The outcome of a stage that commits or has ended.
  function Decided(d: Db, stage: Stage, actor: Actor, ids: Ids): Option<(Db, Reply)> {
    match stage
    case Finished(reply) => Some((d, reply))
    case Commit(tx) =>
      (match Execute(d, tx, actor, ids)
       case Ok(done) => Some((done.db, done.reply))
       case Err(error) => if tx.RecordRun? then None else Some((d, Failure(error))))
    case _ => None
  }

  lemma DecidedIsTheRun(lib: Library, d: Db, c: Client, ids: Ids)
    requires Decided(d, c.stage, c.actor, ids).Some?
    ensures var end := RunAlone(lib, d, c, ids);
            end.1.stage.Finished? && Decided(d, c.stage, c.actor, ids).value == (end.0, end.1.stage.reply)
  {
    hide Execute;
    if c.stage.Commit? {
      RunCommit(lib, d, c, ids);
    }
  }

  lemma ServedInOneLookUp(lib: Library, d: Db, q: Request, actor: Actor, ids: Ids)
    requires Decided(d, Started(lib, d, q, actor), actor, ids).Some?
    ensures Serve(lib, d, q, actor, ids) == Decided(d, Started(lib, d, q, actor), actor, ids).value
  {
    hide Started, Decided, Step;
    var c := Client(q, actor, Start);
    RunReading(lib, d, c, ids);
    DecidedIsTheRun(lib, d, c.(stage := Started(lib, d, q, actor)), ids);
  }

  // One stage of the request lies between its start and its outcome.
  lemma ServedInTwoLookUps(lib: Library, d: Db, q: Request, actor: Actor, ids: Ids, mid: Stage)
    requires Started(lib, d, q, actor) == mid && !mid.Finished? && !mid.Commit?
    requires Decided(d, Reading(lib, d, Client(q, actor, mid)), actor, ids).Some?
    ensures Serve(lib, d, q, actor, ids) == Decided(d, Reading(lib, d, Client(q, actor, mid)), actor, ids).value
  {
    hide Started, Decided, Step;
    var c := Client(q, actor, Start);
    RunReading(lib, d, c, ids);
    assert c.(stage := Reading(lib, d, c)) == Client(q, actor, mid);
    RunReading(lib, d, Client(q, actor, mid), ids);
    DecidedIsTheRun(lib, d, Client(q, actor, Reading(lib, d, Client(q, actor, mid))), ids);
  }

  // ---- Which rows were still current ----

  // The rows a transaction relies on but its guard does not protect.
  ghost predicate ReadsAreCurrent(d: Db, tx: Tx) {
    match tx
    case UpdateParcel(before, _, _) => before.id in d.parcels && d.parcels[before.id] == before
    case MoveObservation(_, _, replacement, _) =>
      replacement.Some? ==> replacement.value in d.observations && d.observations[replacement.value].state != Superseded
    case InsertProposal(p) => p.parcelId in d.parcels && d.parcels[p.parcelId].version == p.baseVersion
    case ApplySuggestion(conflict, derived) =>
      && conflict.proposalId in d.proposals && d.proposals[conflict.proposalId].version + 1 == derived.version
      && derived.parcelId in d.parcels && d.parcels[derived.parcelId].version == derived.baseVersion
    case _ => true
  }

  // A committed request and what the same request would have done in one piece.
  ghost predicate Atomic(lib: Library, d: Db, q: Request, actor: Actor, ids: Ids, done: Committed) {
    Serve(lib, d, q, actor, ids) == (done.db, done.reply)
  }

  lemma CommittingIsLogged(d: Db, tx: Tx, actor: Actor, ids: Ids)
    requires !tx.RecordRun? && Execute(d, tx, actor, ids).Ok?
    ensures |Execute(d, tx, actor, ids).value.db.audits| > |d.audits|
  {
  }

  lemma UpdateIsAtomic(lib: Library, d: Db, c: Client, tx: Tx, ids: Ids)
    requires ParcelsOk(d) && c.request.UpdateParcelRequest? && CommitFromRequest(lib, d, c, tx)
    requires TxOk(lib, d, tx, c.actor) && Execute(d, tx, c.actor, ids).Ok?
    ensures Atomic(lib, d, c.request, c.actor, ids, Execute(d, tx, c.actor, ids).value) <==> ReadsAreCurrent(d, tx)
  {
    hide Trail, Patched, RunAlone;
    var row := d.parcels[c.request.id];
    var stage := AfterReadingParcel(lib, row, c.request.patch);
    ServedInOneLookUp(lib, d, c.request, c.actor, ids);
    var done := Execute(d, tx, c.actor, ids).value;
    assert done.db.audits[|d.audits|].before == ParcelImage(tx.before);
    if stage.Commit? && Execute(d, stage.tx, c.actor, ids).Ok? {
      assert Execute(d, stage.tx, c.actor, ids).value.db.audits[|d.audits|].before == ParcelImage(row);
    }
  }

  lemma MoveObservationIsAtomic(lib: Library, d: Db, c: Client, tx: Tx, ids: Ids)
    requires ParcelsOk(d) && c.request.MoveObservationRequest? && CommitFromRequest(lib, d, c, tx)
    requires TxOk(lib, d, tx, c.actor) && Execute(d, tx, c.actor, ids).Ok?
    ensures Atomic(lib, d, c.request, c.actor, ids, Execute(d, tx, c.actor, ids).value) <==> ReadsAreCurrent(d, tx)
  {
    hide Trail, RunAlone, ParcelsOk;
    GuardSeesTheCopy(lib, d, tx, c.actor, ids);
    CommittingIsLogged(d, tx, c.actor, ids);
    var stage := AfterReadingObservation(tx.observation, c.request.observationMove, c.actor);
    if c.request.observationMove.to == Superseded {
      ServedInTwoLookUps(lib, d, c.request, c.actor, ids, stage);
    } else {
      ServedInOneLookUp(lib, d, c.request, c.actor, ids);
    }
  }

  // With the evidence in place, checking it one by one reaches the insertion.
  lemma {:induction false} EvidencePasses(lib: Library, d: Db, c: Client, parcel: Parcel, n: NewProposal, next: nat, ids: Ids)
    requires EvidenceOk(d, n, |n.observationIds|) && c.stage == ReadEvidence(parcel, n, next)
    ensures RunAlone(lib, d, c, ids)
         == RunAlone(lib, d, c.(stage := Commit(InsertProposal(CreatedProposal(lib, parcel, n, c.actor)))), ids)
    decreases |n.observationIds| - next
  {
    hide RunAlone;
    RunReading(lib, d, c, ids);
    if next < |n.observationIds| {
      EvidencePasses(lib, d, c.(stage := ReadEvidence(parcel, n, next + 1)), parcel, n, next + 1, ids);
    }
  }

  lemma CreateProposalIsAtomic(lib: Library, d: Db, c: Client, tx: Tx, ids: Ids)
    requires ParcelsOk(d) && c.request.CreateProposalRequest? && CommitFromRequest(lib, d, c, tx)
    requires Execute(d, tx, c.actor, ids).Ok?
    ensures Atomic(lib, d, c.request, c.actor, ids, Execute(d, tx, c.actor, ids).value) <==> ReadsAreCurrent(d, tx)
  {
    hide Trail, RunAlone, ParcelsOk;
    var n := c.request.newProposal;
    var parcel := d.parcels[n.parcelId];
    CommittingIsLogged(d, tx, c.actor, ids);
    CurrentParcelIsKnown(d, n.parcelId);
    if parcel.version == n.baseVersion {
      var mid := Client(c.request, c.actor, ReadEvidence(parcel, n, 0));
      RunReading(lib, d, Client(c.request, c.actor, Start), ids);
      EvidencePasses(lib, d, mid, parcel, n, 0, ids);
      RunCommit(lib, d, mid.(stage := Commit(tx)), ids);
    } else {
      ServedInOneLookUp(lib, d, c.request, c.actor, ids);
    }
  }

  lemma ApplyServed(lib: Library, d: Db, q: Request, actor: Actor, ids: Ids, conflict: Conflict, source: Proposal, parcel: Parcel)
    requires q.ApplyRequest? && (actor.role == Reviewer || actor.role == Admin)
    requires q.id in d.conflicts && d.conflicts[q.id] == conflict && conflict.state == ResolutionProposed
    requires conflict.suggestion != "" && Parsed(lib.engine, conflict.suggestion).Some?
    requires conflict.proposalId in d.proposals && d.proposals[conflict.proposalId] == source
    requires source.parcelId in d.parcels && d.parcels[source.parcelId] == parcel
    ensures var now := ApplySuggestion(conflict, DerivedProposal(lib, conflict, source, parcel, q.rationale, actor));
            Serve(lib, d, q, actor, ids) == Decided(d, Commit(now), actor, ids).value
  {
    hide RunAlone, DerivedProposal, Execute;
    var now := ApplySuggestion(conflict, DerivedProposal(lib, conflict, source, parcel, q.rationale, actor));
    RunReading(lib, d, Client(q, actor, Start), ids);
    RunReading(lib, d, Client(q, actor, ReadSource(conflict, q.rationale)), ids);
    RunReading(lib, d, Client(q, actor, ReadSourceParcel(conflict, source, q.rationale)), ids);
    DecidedIsTheRun(lib, d, Client(q, actor, Commit(now)), ids);
  }

  // With the guard satisfied, the draft shows in the reply.
  lemma AppliedReply(d: Db, conflict: Conflict, a: Proposal, b: Proposal, actor: Actor, ids: Ids)
    requires Execute(d, ApplySuggestion(conflict, a), actor, ids).Ok?
    ensures Decided(d, Commit(ApplySuggestion(conflict, b)), actor, ids).Some?
    ensures a.version != b.version || a.baseVersion != b.baseVersion ==>
              Decided(d, Commit(ApplySuggestion(conflict, b)), actor, ids).value.1 != Execute(d, ApplySuggestion(conflict, a), actor, ids).value.reply
    ensures a == b ==>
              Decided(d, Commit(ApplySuggestion(conflict, b)), actor, ids).value
              == (Execute(d, ApplySuggestion(conflict, a), actor, ids).value.db, Execute(d, ApplySuggestion(conflict, a), actor, ids).value.reply)
  {
  }

  lemma ApplyIsAtomic(lib: Library, d: Db, c: Client, tx: Tx, ids: Ids)
    requires ParcelsOk(d) && GroundedOk(lib, d) && c.request.ApplyRequest? && CommitFromRequest(lib, d, c, tx)
    requires TxOk(lib, d, tx, c.actor) && Execute(d, tx, c.actor, ids).Ok?
    ensures Atomic(lib, d, c.request, c.actor, ids, Execute(d, tx, c.actor, ids).value) <==> ReadsAreCurrent(d, tx)
  {
    hide Trail, Serve, ParcelsOk, FreshDraft;
    var conflict, rationale := tx.conflict, c.request.rationale;
    GuardSeesTheCopy(lib, d, tx, c.actor, ids);
    ApplyGuard(d, tx, c.actor, ids);
    hide Execute, Decided, ConflictLater, CanConflictTransition;
    var source := d.proposals[conflict.proposalId];
    assert source.parcelId in d.parcels by { assert Grounded(lib, d, source); }
    var parcel := d.parcels[source.parcelId];
    CurrentParcelIsKnown(d, source.parcelId);
    var now := DerivedProposal(lib, conflict, source, parcel, rationale, c.actor);
    ApplyServed(lib, d, c.request, c.actor, ids, conflict, source, parcel);
    AppliedReply(d, conflict, tx.derived, now, c.actor, ids);
    if tx.derived.version == now.version && tx.derived.baseVersion == now.baseVersion {
      assert source.(version := tx.derived.version - 1) == source;
      assert tx.derived == now;
    }
  }

  lemma ApplyGuard(d: Db, tx: Tx, actor: Actor, ids: Ids)
    requires tx.ApplySuggestion? && Execute(d, tx, actor, ids).Ok?
    ensures tx.conflict.id in d.conflicts
  {
  }

  lemma MoveProposalIsAtomic(lib: Library, d: Db, c: Client, tx: Tx, ids: Ids)
    requires ParcelsOk(d) && c.request.MoveProposalRequest? && CommitFromRequest(lib, d, c, tx)
    requires TxOk(lib, d, tx, c.actor) && Execute(d, tx, c.actor, ids).Ok?
    ensures Atomic(lib, d, c.request, c.actor, ids, Execute(d, tx, c.actor, ids).value) <==> ReadsAreCurrent(d, tx)
  {
    hide Trail, RunAlone, ParcelsOk;
    GuardSeesTheCopy(lib, d, tx, c.actor, ids);
    ServedInOneLookUp(lib, d, c.request, c.actor, ids);
  }

  lemma MoveConflictIsAtomic(lib: Library, d: Db, c: Client, tx: Tx, ids: Ids)
    requires ParcelsOk(d) && c.request.MoveConflictRequest? && CommitFromRequest(lib, d, c, tx)
    requires TxOk(lib, d, tx, c.actor) && Execute(d, tx, c.actor, ids).Ok?
    ensures Atomic(lib, d, c.request, c.actor, ids, Execute(d, tx, c.actor, ids).value) <==> ReadsAreCurrent(d, tx)
  {
    hide Trail, RunAlone, ParcelsOk;
    GuardSeesTheCopy(lib, d, tx, c.actor, ids);
    ServedInOneLookUp(lib, d, c.request, c.actor, ids);
  }

  lemma InsertIsAtomic(lib: Library, d: Db, c: Client, tx: Tx, ids: Ids)
    requires (c.request.CreateParcelRequest? || c.request.ImportObservationRequest?) && CommitFromRequest(lib, d, c, tx)
    requires Execute(d, tx, c.actor, ids).Ok?
    ensures Atomic(lib, d, c.request, c.actor, ids, Execute(d, tx, c.actor, ids).value) <==> ReadsAreCurrent(d, tx)
  {
    hide RunAlone;
    ServedInOneLookUp(lib, d, c.request, c.actor, ids);
  }

  lemma DetectionsRecordRuns(lib: Library, d: Db, c: Client, tx: Tx)
    requires CommitFromRequest(lib, d, c, tx)
    ensures c.request.DetectRequest? <==> tx.RecordRun?
  {
  }

  lemma CommitIsAtomic(lib: Library, d: Db, c: Client, tx: Tx, ids: Ids)
    requires StoreOk(lib, d) && TxOk(lib, d, tx, c.actor) && CommitFromRequest(lib, d, c, tx)
    requires !tx.RecordRun? && Execute(d, tx, c.actor, ids).Ok?
    ensures Atomic(lib, d, c.request, c.actor, ids, Execute(d, tx, c.actor, ids).value) <==> ReadsAreCurrent(d, tx)
  {
    hide StoreOk, ParcelsOk, GroundedOk, TxOk, Execute, CommitFromRequest, ReadsAreCurrent, Atomic;
    OpenStore(lib, d);
    DetectionsRecordRuns(lib, d, c, tx);
    match c.request
    case UpdateParcelRequest(_, _) => UpdateIsAtomic(lib, d, c, tx, ids);
    case MoveObservationRequest(_, _) => MoveObservationIsAtomic(lib, d, c, tx, ids);
    case CreateProposalRequest(_) => CreateProposalIsAtomic(lib, d, c, tx, ids);
    case ApplyRequest(_, _) => ApplyIsAtomic(lib, d, c, tx, ids);
    case MoveProposalRequest(_, _) => MoveProposalIsAtomic(lib, d, c, tx, ids);
    case MoveConflictRequest(_, _) => MoveConflictIsAtomic(lib, d, c, tx, ids);
    case CreateParcelRequest(_) => InsertIsAtomic(lib, d, c, tx, ids);
    case ImportObservationRequest(_) => InsertIsAtomic(lib, d, c, tx, ids);
  }

  /** Whatever the interleaving, a request other than a detection that commits
      has the effect and the reply of running in one piece at that moment,
      if and only if the rows it relied on unguarded are still current. */
  lemma EveryCommitIsAtomic(lib: Library, events: seq<Event>, who: nat, ids: Ids)
    requires Busy(After(lib, events), who) && After(lib, events).clients[who].stage.Commit?
    requires !After(lib, events).clients[who].stage.tx.RecordRun?
    requires Execute(After(lib, events).db, After(lib, events).clients[who].stage.tx, After(lib, events).clients[who].actor, ids).Ok?
    ensures var s := After(lib, events); var c := s.clients[who]; var s' := Apply(lib, s, Act(who, ids));
            (s'.db, s'.clients[who].stage.reply) == Serve(lib, s.db, c.request, c.actor, ids) <==> ReadsAreCurrent(s.db, c.stage.tx)
  {
    hide RunAlone, StoreOk, TxOk, Execute, CommitFromRequest, ReadsAreCurrent, After;
    AlwaysOk(lib, events);
    AlwaysFromRequests(lib, events);
    var s := After(lib, events);
    CommitIsAtomic(lib, s.db, s.clients[who], s.clients[who].stage.tx, ids);
  }
}
