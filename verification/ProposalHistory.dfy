/**
 The states a proposal has been in: its log goes round the review cycle, and a
 decision is final.
 */
module ProposalHistory {
  import opened Basics
  import opened Lifecycles
  import opened Records
  import opened Transactions
  import opened Protocol
  import opened Trails
  import opened Growth
  import opened Invariants
  import opened Preservation
  import opened DetectionWrites
  import opened Interleaving
  import opened Reviews

  // The entry records that the proposal came to this state.
  predicate ShowsStage(e: AuditEntry, state: ProposalState) {
    match e.after
    case ProposalImage(p) => p.state == state
    case ProposalChange(s, _) => s == state
    case _ => false
  }

  ghost predicate Untouched(d: Db, d': Db, id: Id) {
    id in d.proposals && id in d'.proposals && d'.proposals[id] == d.proposals[id] && ProposalTrail(d', id) == ProposalTrail(d, id)
  }

  // One more entry in the trail, for one transition of the row.
  ghost predicate Advanced(d: Db, d': Db, id: Id) {
    && id in d.proposals && id in d'.proposals && CanProposalTransition(d.proposals[id].state, d'.proposals[id].state)
    && exists e :: ProposalTrail(d', id) == ProposalTrail(d, id) + [e] && ShowsStage(e, d'.proposals[id].state)
  }

  ghost predicate Drafted(d: Db, id: Id) {
    && id in d.proposals && d.proposals[id].state == Draft
    && exists e :: ProposalTrail(d, id) == [e] && ShowsStage(e, Draft)
  }

  // What one step does to a proposal: nothing, one transition, or its creation.
  ghost predicate ProposalStepped(d: Db, d': Db, id: Id) {
    if id in d.proposals then Untouched(d, d', id) || Advanced(d, d', id) else id in d'.proposals ==> Drafted(d', id)
  }

  // ---- One transaction ----

  lemma OtherEntryElsewhere(log: seq<AuditEntry>, e: AuditEntry, id: Id)
    requires e.resource != ProposalResource || e.resourceId != id
    ensures Trail(log + [e], ProposalResource, id) == Trail(log, ProposalResource, id)
  {
    TrailSnoc(log, e, ProposalResource, id);
  }

  lemma EntryOfItsOwn(log: seq<AuditEntry>, e: AuditEntry, id: Id)
    requires e.resource == ProposalResource && e.resourceId == id
    ensures Trail(log + [e], ProposalResource, id) == Trail(log, ProposalResource, id) + [e]
  {
    TrailSnoc(log, e, ProposalResource, id);
  }

  lemma NothingForProposals(d: Db, d': Db, id: Id)
    requires d'.proposals == d.proposals && ProposalTrail(d', id) == ProposalTrail(d, id)
    ensures ProposalStepped(d, d', id)
  {
    hide Trail;
  }

  lemma OtherTxsLeaveProposals(d: Db, tx: Tx, actor: Actor, ids: Ids, id: Id)
    requires !tx.InsertProposal? && !tx.MoveProposal? && !tx.ApplySuggestion? && !tx.RecordRun? && Execute(d, tx, actor, ids).Ok?
    ensures ProposalStepped(d, Execute(d, tx, actor, ids).value.db, id)
  {
    hide Trail;
    var d' := Execute(d, tx, actor, ids).value.db;
    OtherEntryElsewhere(d.audits, d'.audits[|d.audits|], id);
    NothingForProposals(d, d', id);
  }

  lemma RunsLeaveProposals(d: Db, items: seq<Conflict>, run: DetectionRun, parcelId: Id, actor: Actor, ids: Ids, id: Id)
    requires Execute(d, RecordRun(items, run, parcelId), actor, ids).Ok?
    ensures ProposalStepped(d, Execute(d, RecordRun(items, run, parcelId), actor, ids).value.db, id)
  {
    hide Execute, InsertConflicts, Trail, Silent, Later;
    var done := Execute(d, RecordRun(items, run, parcelId), actor, ids).value;
    RecordRunEffect(d, items, run, parcelId, actor, ids, done);
    Unheard(d, done.db, ProposalResource);
    NothingForProposals(d, done.db, id);
  }

  lemma MoveAdvances(d: Db, item: Proposal, to: ProposalState, rationale: string, actor: Actor, ids: Ids, id: Id)
    requires CanProposalTransition(item.state, to) && Execute(d, MoveProposal(item, to, rationale), actor, ids).Ok?
    ensures ProposalStepped(d, Execute(d, MoveProposal(item, to, rationale), actor, ids).value.db, id)
  {
    hide Trail;
    var d', n := Execute(d, MoveProposal(item, to, rationale), actor, ids).value.db, |d.audits|;
    if id == item.id {
      EntryOfItsOwn(d.audits, d'.audits[n], id);
    } else {
      OtherEntryElsewhere(d.audits, d'.audits[n], id);
    }
  }

  lemma DraftAppears(lib: Library, d: Db, tx: Tx, actor: Actor, ids: Ids, id: Id)
    requires (tx.InsertProposal? || tx.ApplySuggestion?) && TxOk(lib, d, tx, actor) && Execute(d, tx, actor, ids).Ok?
    requires id in d.proposals || ProposalTrail(d, id) == []
    ensures ProposalStepped(d, Execute(d, tx, actor, ids).value.db, id)
  {
    hide Trail, Grounded, ConflictLater;
    var d', n := Execute(d, tx, actor, ids).value.db, |d.audits|;
    var first := d'.audits[n];
    if id == ids.row {
      EntryOfItsOwn(d.audits, first, id);
      assert [] + [first] == [first];
    } else {
      OtherEntryElsewhere(d.audits, first, id);
    }
    if tx.ApplySuggestion? {
      OtherEntryElsewhere(d.audits + [first], d'.audits[n + 1], id);
      assert d'.audits == d.audits + [first] + [d'.audits[n + 1]];
    }
  }

  // ---- Every run ----

  lemma AbsentProposalIsSilent(lib: Library, d: Db, id: Id)
    requires StoreOk(lib, d)
    ensures id in d.proposals || ProposalTrail(d, id) == []
  {
    hide ParcelsOk, ObservationsOk, ConflictsOk, LinksOk, GroundedOk, RunsOk, DraftsOk, ReplayedProposal;
    assert ProposalTracked(Lookup(d.proposals, id), id, Trail(d.audits, ProposalResource, id));
  }

  lemma TransactionStepsProposals(lib: Library, d: Db, tx: Tx, actor: Actor, ids: Ids, id: Id)
    requires TxOk(lib, d, tx, actor) && Execute(d, tx, actor, ids).Ok? && (id in d.proposals || ProposalTrail(d, id) == [])
    ensures ProposalStepped(d, Execute(d, tx, actor, ids).value.db, id)
  {
    hide Execute, Trail, ProposalStepped, FreshDraft;
    match tx
    case InsertProposal(_) => DraftAppears(lib, d, tx, actor, ids, id);
    case ApplySuggestion(_, _) => DraftAppears(lib, d, tx, actor, ids, id);
    case MoveProposal(item, to, rationale) => MoveAdvances(d, item, to, rationale, actor, ids, id);
    case RecordRun(items, run, parcelId) => RunsLeaveProposals(d, items, run, parcelId, actor, ids, id);
    case _ => OtherTxsLeaveProposals(d, tx, actor, ids, id);
  }

  lemma EventStepsProposals(lib: Library, s: System, event: Event, id: Id)
    requires SystemOk(lib, s)
    ensures ProposalStepped(s.db, Apply(lib, s, event).db, id)
  {
    hide StoreOk, TxOk, Execute, Reading, Trail, ProposalStepped;
    AbsentProposalIsSilent(lib, s.db, id);
    NothingForProposals(s.db, s.db, id);
    if event.Act? && Busy(s, event.who) {
      var c := s.clients[event.who];
      assert StageOk(lib, s.db, c.stage, c.actor);
      if c.stage.Commit? && Execute(s.db, c.stage.tx, c.actor, event.ids).Ok? {
        TransactionStepsProposals(lib, s.db, c.stage.tx, c.actor, event.ids, id);
      }
    }
  }

  // ---- Round and round, until it is decided ----

  const ROUND := [Draft, Validated, Submitted, Reviewed, Revision]

  // The log goes round the cycle; only its last entry may be a decision, in the place of a revision.
  ghost predicate GoesRound(t: seq<AuditEntry>, state: ProposalState) {
    && t != [] && ShowsStage(t[|t| - 1], state)
    && (forall i :: 0 <= i < |t| - 1 ==> ShowsStage(t[i], ROUND[i % 5]))
    && (state == ROUND[(|t| - 1) % 5] || ((|t| - 1) % 5 == 4 && (state == Accepted || state == Rejected)))
  }

  lemma RoundGoesOn(t: seq<AuditEntry>, e: AuditEntry, from: ProposalState, to: ProposalState)
    requires GoesRound(t, from) && CanProposalTransition(from, to) && ShowsStage(e, to)
    ensures GoesRound(t + [e], to)
  {
    hide ShowsStage;
    var n := |t| - 1;
    assert from == ROUND[n % 5];
    assert (n + 1) % 5 == (if n % 5 == 4 then 0 else n % 5 + 1);
    assert (t + [e])[|t|] == e;
    forall i | 0 <= i < |t| ensures ShowsStage((t + [e])[i], ROUND[i % 5]) {
      assert (t + [e])[i] == t[i];
    }
  }

  lemma StepGoesRound(d: Db, d': Db, id: Id)
    requires ProposalStepped(d, d', id) && id in d'.proposals
    requires id in d.proposals ==> GoesRound(ProposalTrail(d, id), d.proposals[id].state)
    ensures GoesRound(ProposalTrail(d', id), d'.proposals[id].state)
  {
    hide Trail, ShowsStage;
    if Advanced(d, d', id) {
      hide GoesRound;
      var e :| ProposalTrail(d', id) == ProposalTrail(d, id) + [e] && ShowsStage(e, d'.proposals[id].state);
      RoundGoesOn(ProposalTrail(d, id), e, d.proposals[id].state, d'.proposals[id].state);
    }
  }

  /** In every reachable state the log of a proposal goes draft, validated,
      submitted, reviewed, revision and round again; it shows an acceptance or a
      rejection only as its last entry, in the place of a revision. */
  lemma {:induction false} ProposalsGoRound(lib: Library, events: seq<Event>, id: Id)
    requires id in After(lib, events).db.proposals
    ensures var d := After(lib, events).db; GoesRound(ProposalTrail(d, id), d.proposals[id].state)
  {
    hide Apply, SystemOk, GoesRound, ProposalStepped, Trail;
    if events != [] {
      var front := events[..|events| - 1];
      AlwaysOk(lib, front);
      EventStepsProposals(lib, After(lib, front), events[|events| - 1], id);
      if id in After(lib, front).db.proposals {
        ProposalsGoRound(lib, front, id);
      }
      StepGoesRound(After(lib, front).db, After(lib, events).db, id);
    }
  }

  ghost predicate Settled(d: Db, id: Id) {
    id in d.proposals && (d.proposals[id].state == Accepted || d.proposals[id].state == Rejected)
  }

  /** Once accepted or rejected, a proposal never changes again and gets no
      further entry in its log. */
  lemma {:induction false} DecisionsAreFinal(lib: Library, events: seq<Event>, n: nat, id: Id)
    requires n <= |events| && Settled(After(lib, events[..n]).db, id)
    ensures Untouched(After(lib, events[..n]).db, After(lib, events).db, id)
    decreases |events|
  {
    hide Apply, SystemOk, Trail;
    if n == |events| {
      assert events[..n] == events;
    } else {
      var front := events[..|events| - 1];
      assert front[..n] == events[..n];
      DecisionsAreFinal(lib, front, n, id);
      AlwaysOk(lib, front);
      EventStepsProposals(lib, After(lib, front), events[|events| - 1], id);
    }
  }
}
