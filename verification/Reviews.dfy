/**
 What reviewers and auditors may rely on in every reachable state: checked
 copies are real, replies are true, logs are complete, drafts are unique.
 */
module Reviews {
  import opened Basics
  import Text
  import opened Lifecycles
  import opened Records
  import opened Transactions
  import opened Protocol
  import opened Trails
  import opened Growth
  import opened Invariants
  import opened ConflictHistory
  import opened Interleaving
  import opened Refinement

  // ---- A commit about to succeed ----

  ghost predicate Commits(s: System, who: nat, ids: Ids) {
    && who in s.clients && s.clients[who].stage.Commit?
    && Execute(s.db, s.clients[who].stage.tx, s.clients[who].actor, ids).Ok?
  }

  // What the service checked on its copy, said of the row itself.
  ghost predicate CheckedOnTheRow(d: Db, tx: Tx, actor: Actor) {
    match tx
    case MoveProposal(item, to, _) =>
      && item.id in d.proposals && d.proposals[item.id] == item && CanProposalTransition(d.proposals[item.id].state, to)
      && MayMoveProposal(d.proposals[item.id].createdBy, to, actor.id, actor.role)
    case MoveObservation(item, to, _, _) =>
      && item.id in d.observations && d.observations[item.id] == item && CanObservationTransition(d.observations[item.id].state, to)
      && d.observations[item.id].replacedBy == None
    case MoveConflict(item, to) =>
      item.id in d.conflicts && d.conflicts[item.id] == item && CanConflictTransition(d.conflicts[item.id].state, to)
    case ApplySuggestion(item, _) =>
      item.id in d.conflicts && d.conflicts[item.id] == item && d.conflicts[item.id].state == ResolutionProposed
    case _ => true
  }

  predicate MovesARow(tx: Tx) {
    tx.MoveProposal? || tx.MoveObservation? || tx.MoveConflict? || tx.ApplySuggestion?
  }

  lemma CommittingIsChecked(lib: Library, d: Db, tx: Tx, actor: Actor, ids: Ids)
    requires StoreOk(lib, d) && TxOk(lib, d, tx, actor) && Execute(d, tx, actor, ids).Ok?
    ensures CheckedOnTheRow(d, tx, actor)
  {
    hide ParcelsOk, ObservationsOk, ProposalsOk, ConflictsOk, GroundedOk, RunsOk, OneToOne, Origins, Applied;
    GuardSeesTheCopy(lib, d, tx, actor, ids);
    if tx.MoveObservation? {
      assert LinkOk(d, tx.observation.id);
    }
  }

  /** Whenever a transition commits, the row it changes is the copy its request
      read, so legality, role and authorship hold of the real row. */
  lemma TransitionsAreLegal(lib: Library, events: seq<Event>, who: nat, ids: Ids)
    requires Commits(After(lib, events), who, ids)
    ensures var s := After(lib, events); var c := s.clients[who];
            CheckedOnTheRow(s.db, c.stage.tx, c.actor)
  {
    hide After, Execute, StoreOk, TxOk, CheckedOnTheRow;
    AlwaysOk(lib, events);
    var s := After(lib, events);
    CommittingIsChecked(lib, s.db, s.clients[who].stage.tx, s.clients[who].actor, ids);
  }

  // ---- The entry a transition leaves ----

  function RowImage(d: Db, tx: Tx): Image {
    match tx
    case MoveProposal(item, _, _) => if item.id in d.proposals then ProposalImage(d.proposals[item.id]) else Nothing
    case MoveObservation(item, _, _, _) => if item.id in d.observations then ObservationImage(d.observations[item.id]) else Nothing
    case MoveConflict(item, _) => if item.id in d.conflicts then ConflictImage(d.conflicts[item.id]) else Nothing
    case ApplySuggestion(item, _) => if item.id in d.conflicts then ConflictImage(d.conflicts[item.id]) else Nothing
    case _ => Nothing
  }

  /** The last audit entry of a transition names its actor and request, and its
      before-image is the row as it stood. */
  lemma TransitionsAreLogged(lib: Library, events: seq<Event>, who: nat, ids: Ids)
    requires Commits(After(lib, events), who, ids) && MovesARow(After(lib, events).clients[who].stage.tx)
    ensures var s := After(lib, events); var c := s.clients[who]; var log := Apply(lib, s, Act(who, ids)).db.audits;
            && |log| == |s.db.audits| + (if c.stage.tx.ApplySuggestion? then 2 else 1) && s.db.audits <= log
            && log[|log| - 1].before == RowImage(s.db, c.stage.tx)
            && log[|log| - 1].actorId == c.actor.id && log[|log| - 1].requestId == c.actor.requestId
            && !Text.Blank(log[|log| - 1].requestId)
  {
    hide After, StoreOk;
    AlwaysOk(lib, events);
    var s := After(lib, events);
    var c := s.clients[who];
    assert ParcelsOk(s.db) by { OpenStore(lib, s.db); }
    GuardSeesTheCopy(lib, s.db, c.stage.tx, c.actor, ids);
  }

  // ---- Replies ----

  function StoredRow(d: Db, reply: Reply): Option<Reply> {
    match reply
    case ParcelReply(p) => if p.id in d.parcels then Some(ParcelReply(d.parcels[p.id])) else None
    case ObservationReply(o) => if o.id in d.observations then Some(ObservationReply(d.observations[o.id])) else None
    case ProposalReply(p) => if p.id in d.proposals then Some(ProposalReply(d.proposals[p.id])) else None
    case ConflictReply(c) => if c.id in d.conflicts then Some(ConflictReply(d.conflicts[c.id])) else None
    case _ => None
  }

  // A proposal transition that changes the rationale replies with the old one.
  predicate RepliesWithOldRationale(tx: Tx) {
    tx.MoveProposal? && tx.rationale != "" && tx.rationale != tx.proposal.rationale
  }

  lemma UpdateReplies(lib: Library, d: Db, tx: Tx, actor: Actor, ids: Ids)
    requires StoreOk(lib, d) && TxOk(lib, d, tx, actor) && tx.UpdateParcel? && Execute(d, tx, actor, ids).Ok?
    ensures var done := Execute(d, tx, actor, ids).value; StoredRow(done.db, done.reply) == Some(done.reply)
  {
    hide StoreOk, KnownParcel;
    CodeOfUpdated(lib, d, tx.before);
  }

  lemma ObservationReplies(lib: Library, d: Db, tx: Tx, actor: Actor, ids: Ids)
    requires ParcelsOk(d) && LinksOk(d) && TxOk(lib, d, tx, actor) && tx.MoveObservation? && Execute(d, tx, actor, ids).Ok?
    ensures var done := Execute(d, tx, actor, ids).value; StoredRow(done.db, done.reply) == Some(done.reply)
  {
    hide ParcelsOk, ReplacementOk;
    GuardSeesTheCopy(lib, d, tx, actor, ids);
    assert LinkOk(d, tx.observation.id);
  }

  lemma ConflictReplies(lib: Library, d: Db, tx: Tx, actor: Actor, ids: Ids)
    requires ParcelsOk(d) && ConflictsOk(d) && TxOk(lib, d, tx, actor) && tx.MoveConflict? && Execute(d, tx, actor, ids).Ok?
    ensures var done := Execute(d, tx, actor, ids).value; StoredRow(done.db, done.reply) == Some(done.reply)
  {
    hide ParcelsOk, ConflictsOk;
    GuardSeesTheCopy(lib, d, tx, actor, ids);
    UnresolvedHasNoResolver(d, tx.conflict.id);
  }

  lemma UnresolvedHasNoResolver(d: Db, id: Id)
    requires ConflictsOk(d) && id in d.conflicts
    ensures d.conflicts[id].resolvedBy.Some? <==> d.conflicts[id].state == Resolved || d.conflicts[id].state == Closed
  {
    hide Trail, ReplayedConflict, Applications;
    assert ConflictTracked(Lookup(d.conflicts, id), id, Trail(d.audits, ConflictResource, id));
  }

  lemma OtherReplies(lib: Library, d: Db, tx: Tx, actor: Actor, ids: Ids)
    requires ParcelsOk(d) && TxOk(lib, d, tx, actor) && Execute(d, tx, actor, ids).Ok?
    requires tx.InsertParcel? || tx.InsertObservation? || tx.InsertProposal? || tx.ApplySuggestion? || tx.MoveProposal?
    ensures var done := Execute(d, tx, actor, ids).value;
            StoredRow(done.db, done.reply) == Some(done.reply) <==> !RepliesWithOldRationale(tx)
  {
    hide ParcelsOk, FreshDraft, CanProposalTransition, MayMoveProposal;
    GuardSeesTheCopy(lib, d, tx, actor, ids);
  }

  lemma CommitReplies(lib: Library, d: Db, tx: Tx, actor: Actor, ids: Ids)
    requires StoreOk(lib, d) && TxOk(lib, d, tx, actor) && !tx.RecordRun? && Execute(d, tx, actor, ids).Ok?
    ensures var done := Execute(d, tx, actor, ids).value;
            StoredRow(done.db, done.reply) == Some(done.reply) <==> !RepliesWithOldRationale(tx)
  {
    hide StoreOk, ParcelsOk, ConflictsOk, LinksOk, TxOk, Execute, StoredRow;
    OpenStore(lib, d);
    match tx
    case UpdateParcel(_, _, _) => UpdateReplies(lib, d, tx, actor, ids);
    case MoveObservation(_, _, _, _) => ObservationReplies(lib, d, tx, actor, ids);
    case MoveConflict(_, _) => ConflictReplies(lib, d, tx, actor, ids);
    case _ => OtherReplies(lib, d, tx, actor, ids);
  }

  lemma CodeOfUpdated(lib: Library, d: Db, before: Parcel)
    requires StoreOk(lib, d) && KnownParcel(d, before)
    ensures d.parcels[before.id].code == before.code && d.parcels[before.id].id == before.id
  {
    CurrentParcelIsKnown(d, before.id);
    SameVersionIsSameParcel(d, before);
  }

  /** A successful write replies with the row it stored, except that a proposal
      transition with a new rationale replies with the old one. */
  lemma RepliesShowTheStoredRow(lib: Library, events: seq<Event>, who: nat, ids: Ids)
    requires Commits(After(lib, events), who, ids) && !After(lib, events).clients[who].stage.tx.RecordRun?
    ensures var s := After(lib, events); var s' := Apply(lib, s, Act(who, ids)); var reply := s'.clients[who].stage.reply;
            StoredRow(s'.db, reply) == Some(reply) <==> !RepliesWithOldRationale(s.clients[who].stage.tx)
  {
    hide After, Execute, StoreOk, TxOk, StoredRow, RepliesWithOldRationale;
    AlwaysOk(lib, events);
    var s := After(lib, events);
    CommitReplies(lib, s.db, s.clients[who].stage.tx, s.clients[who].actor, ids);
  }

  // ---- Logs ----

  /** A proposal's log replays to its row; its length gives the version, its stage
      in the review cycle and whether it has a reviewer, who is never its author. */
  lemma ProposalLogIsComplete(lib: Library, events: seq<Event>, id: Id)
    requires id in After(lib, events).db.proposals
    ensures var d := After(lib, events).db; var p, t := d.proposals[id], Trail(d.audits, ProposalResource, id);
            && t != [] && ReplayedProposal(t) == Some(Erased(p)) && t[0].after.ProposalImage?
            && |t| == 1 + p.version - t[0].after.proposal.version
            && ValidProposalState(p.state) && CycleStep(p.state) == (p.version - t[0].after.proposal.version) % 5
            && (p.reviewedBy.Some? <==> p.version - t[0].after.proposal.version >= 3)
            && p.reviewedBy != Some(p.createdBy)
  {
    hide After, Trail, ReplayedProposal;
    AlwaysOk(lib, events);
    var d := After(lib, events).db;
    assert ProposalTracked(Lookup(d.proposals, id), id, Trail(d.audits, ProposalResource, id));
  }

  // The rationale a proposal's log shows last: of the draft, or before the last transition.
  function LoggedRationale(t: seq<AuditEntry>): Option<string> {
    if t == [] then None
    else
      var e := t[|t| - 1];
      if e.after.ProposalImage? then Some(e.after.proposal.rationale)
      else if e.before.ProposalImage? then Some(e.before.proposal.rationale)
      else None
  }

  function ProposalTrail(d: Db, id: Id): seq<AuditEntry> {
    Trail(d.audits, ProposalResource, id)
  }

  // What a commit leaves as the last logged rationale of a proposal.
  ghost predicate RationaleLogged(d: Db, id: Id) {
    id in d.proposals && LoggedRationale(ProposalTrail(d, id)) == Some(d.proposals[id].rationale)
  }

  lemma MoveLogsRationale(lib: Library, d: Db, item: Proposal, to: ProposalState, rationale: string, actor: Actor, ids: Ids)
    requires KnownProposal(d, item) && Execute(d, MoveProposal(item, to, rationale), actor, ids).Ok?
    ensures RationaleLogged(Execute(d, MoveProposal(item, to, rationale), actor, ids).value.db, item.id)
       <==> !RepliesWithOldRationale(MoveProposal(item, to, rationale))
  {
    hide Trail;
    var d' := Execute(d, MoveProposal(item, to, rationale), actor, ids).value.db;
    TrailSnoc(d.audits, d'.audits[|d.audits|], ProposalResource, item.id);
  }

  lemma DraftLogsRationale(lib: Library, d: Db, tx: Tx, actor: Actor, ids: Ids)
    requires (tx.InsertProposal? || tx.ApplySuggestion?) && Execute(d, tx, actor, ids).Ok?
    ensures RationaleLogged(Execute(d, tx, actor, ids).value.db, ids.row)
  {
    hide Trail;
    var d', n := Execute(d, tx, actor, ids).value.db, |d.audits|;
    TrailSnoc(d.audits, d'.audits[n], ProposalResource, ids.row);
    if tx.ApplySuggestion? {
      TrailSnoc(d.audits + [d'.audits[n]], d'.audits[n + 1], ProposalResource, ids.row);
      assert d'.audits == d.audits + [d'.audits[n]] + [d'.audits[n + 1]];
    }
  }

  /** The log shows a proposal's rationale after its creation, and after a
      transition exactly when the transition did not change it. */
  lemma RationalesAreLoggedUntilChanged(lib: Library, events: seq<Event>, who: nat, ids: Ids)
    requires Commits(After(lib, events), who, ids)
    ensures var s := After(lib, events); var tx := s.clients[who].stage.tx; var d' := Apply(lib, s, Act(who, ids)).db;
            && (tx.InsertProposal? || tx.ApplySuggestion? ==> RationaleLogged(d', ids.row))
            && (tx.MoveProposal? ==> (RationaleLogged(d', tx.proposal.id) <==> !RepliesWithOldRationale(tx)))
  {
    hide After, StoreOk, Execute, RationaleLogged, RepliesWithOldRationale, FreshDraft;
    AlwaysOk(lib, events);
    var s := After(lib, events);
    var c := s.clients[who];
    match c.stage.tx
    case MoveProposal(item, to, rationale) =>
      assert StageOk(lib, s.db, c.stage, c.actor);
      MoveLogsRationale(lib, s.db, item, to, rationale, c.actor, ids);
    case InsertProposal(_) => DraftLogsRationale(lib, s.db, c.stage.tx, c.actor, ids);
    case ApplySuggestion(_, _) => DraftLogsRationale(lib, s.db, c.stage.tx, c.actor, ids);
    case _ =>
  }

  /** An observation's log replays to its row and has one entry for each version. */
  lemma ObservationLogIsComplete(lib: Library, events: seq<Event>, id: Id)
    requires id in After(lib, events).db.observations
    ensures var d := After(lib, events).db; var t := Trail(d.audits, ObservationResource, id);
            ReplayedObservation(t) == Some(d.observations[id]) && |t| == d.observations[id].version
  {
    hide After, Trail, ReplayedObservation;
    AlwaysOk(lib, events);
    var d := After(lib, events).db;
    assert ObservationTracked(Lookup(d.observations, id), id, Trail(d.audits, ObservationResource, id));
  }

  /** A conflict's log replays to its row; it has a resolver exactly when it is
      resolved or closed, and yields at most one draft, only then. */
  lemma ConflictLogIsComplete(lib: Library, events: seq<Event>, id: Id)
    requires id in After(lib, events).db.conflicts
    ensures var d := After(lib, events).db; var c, t := d.conflicts[id], Trail(d.audits, ConflictResource, id);
            && ReplayedConflict(t) == Some(c)
            && (c.resolvedBy.Some? <==> c.state == Resolved || c.state == Closed)
            && |Applications(t)| <= 1 && (Applications(t) != [] ==> c.state == Resolved || c.state == Closed)
  {
    hide After, Trail, ReplayedConflict, Applications;
    AlwaysOk(lib, events);
    var d := After(lib, events).db;
    assert ConflictTracked(Lookup(d.conflicts, id), id, Trail(d.audits, ConflictResource, id));
  }

  lemma ParcelChanges(d: Db, d': Db, id: Id)
    requires ParcelsOk(d) && ParcelsOk(d') && d.audits <= d'.audits
    ensures Lookup(d.parcels, id) == Lookup(d'.parcels, id) <==> Trail(d.audits, ParcelResource, id) == Trail(d'.audits, ParcelResource, id)
  {
    hide Trail;
    assert ParcelTracked(Lookup(d.parcels, id), id, Trail(d.audits, ParcelResource, id));
    assert ParcelTracked(Lookup(d'.parcels, id), id, Trail(d'.audits, ParcelResource, id));
    TrailGrows(d.audits, d'.audits, ParcelResource, id);
  }

  lemma ObservationChanges(d: Db, d': Db, id: Id)
    requires ObservationsOk(d) && ObservationsOk(d') && d.audits <= d'.audits
    ensures Lookup(d.observations, id) == Lookup(d'.observations, id)
       <==> Trail(d.audits, ObservationResource, id) == Trail(d'.audits, ObservationResource, id)
  {
    hide Trail, ReplayedObservation;
    assert ObservationTracked(Lookup(d.observations, id), id, Trail(d.audits, ObservationResource, id));
    assert ObservationTracked(Lookup(d'.observations, id), id, Trail(d'.audits, ObservationResource, id));
    TrailGrows(d.audits, d'.audits, ObservationResource, id);
    NothingReplayed();
  }

  lemma NothingReplayed()
    ensures ReplayedObservation([]) == None && ReplayedProposal([]) == None && ReplayedConflict([]) == None
  {
  }

  lemma ProposalChanges(d: Db, d': Db, id: Id)
    requires ProposalsOk(d) && ProposalsOk(d') && Later(d, d')
    ensures Lookup(d.proposals, id) == Lookup(d'.proposals, id) <==> Trail(d.audits, ProposalResource, id) == Trail(d'.audits, ProposalResource, id)
  {
    hide Trail, ReplayedProposal;
    assert ProposalTracked(Lookup(d.proposals, id), id, Trail(d.audits, ProposalResource, id));
    assert ProposalTracked(Lookup(d'.proposals, id), id, Trail(d'.audits, ProposalResource, id));
    TrailGrows(d.audits, d'.audits, ProposalResource, id);
    assert id in d.proposals ==> ProposalLater(d.proposals[id], d'.proposals[id]);
  }

  lemma ConflictChanges(d: Db, d': Db, id: Id)
    requires ConflictsOk(d) && ConflictsOk(d') && d.conflicts.Keys <= d'.conflicts.Keys
    requires id in d.conflicts ==> KeptOrRaised(d, d', id)
    ensures Lookup(d.conflicts, id) == Lookup(d'.conflicts, id) <==> Trail(d.audits, ConflictResource, id) == Trail(d'.audits, ConflictResource, id)
  {
    hide Trail, ReplayedConflict, Applications, Rank;
    assert ConflictTracked(Lookup(d.conflicts, id), id, Trail(d.audits, ConflictResource, id));
    assert ConflictTracked(Lookup(d'.conflicts, id), id, Trail(d'.audits, ConflictResource, id));
    NothingReplayed();
  }

  /** No silent writes, and no entries without one: between any two moments of a
      run a row of any table of these has changed exactly when its log has grown. */
  lemma ChangesAreLogged(lib: Library, events: seq<Event>, n: nat, id: Id)
    requires n <= |events|
    ensures var d, d' := After(lib, events[..n]).db, After(lib, events).db;
            && (Lookup(d.parcels, id) == Lookup(d'.parcels, id) <==> Trail(d.audits, ParcelResource, id) == Trail(d'.audits, ParcelResource, id))
            && (Lookup(d.observations, id) == Lookup(d'.observations, id)
                <==> Trail(d.audits, ObservationResource, id) == Trail(d'.audits, ObservationResource, id))
            && (Lookup(d.proposals, id) == Lookup(d'.proposals, id)
                <==> Trail(d.audits, ProposalResource, id) == Trail(d'.audits, ProposalResource, id))
            && (Lookup(d.conflicts, id) == Lookup(d'.conflicts, id)
                <==> Trail(d.audits, ConflictResource, id) == Trail(d'.audits, ConflictResource, id))
  {
    hide After, Trail, StoreOk, ParcelsOk, ObservationsOk, ProposalsOk, ConflictsOk, LinksOk, GroundedOk, RunsOk, KeptOrRaised;
    var d, d' := After(lib, events[..n]).db, After(lib, events).db;
    AlwaysOk(lib, events[..n]);
    AlwaysOk(lib, events);
    RunsGoForward(lib, events, n);
    OpenStore(lib, d);
    OpenStore(lib, d');
    ParcelChanges(d, d', id);
    ObservationChanges(d, d', id);
    ProposalChanges(d, d', id);
    if id in d.conflicts {
      ConflictsClimb(lib, events, n, id);
    }
    ConflictChanges(d, d', id);
  }

  // ---- Applying a suggestion ----

  ghost predicate DraftOf(d: Db, conflict: Id, draft: Id) {
    conflict in d.conflicts && draft in AppliedDrafts(d, conflict)
  }

  lemma OpenDrafts(lib: Library, d: Db)
    requires StoreOk(lib, d)
    ensures DraftsOk(d)
  {
  }

  lemma DraftsCorrespond(d: Db, draft: Id)
    requires DraftsOk(d)
    ensures draft in d.proposals && Origin(d, draft) == Some(ProposalDerived) <==> exists c :: DraftOf(d, c, draft)
    ensures forall b, c :: DraftOf(d, b, draft) && DraftOf(d, c, draft) ==> b == c
  {
    hide Origin, AppliedDrafts;
    var origins, applied := Origins(d), Applied(d);
    if draft in d.proposals && Origin(d, draft) == Some(ProposalDerived) {
      assert draft in origins && HasSource(applied, draft);
      var c :| c in applied && draft in applied[c];
      assert DraftOf(d, c, draft);
    }
    forall c | DraftOf(d, c, draft) ensures c in applied && draft in applied[c] && draft in origins {
    }
  }

  lemma AppliedIsSettled(d: Db, id: Id)
    requires ConflictsOk(d) && AppliedDrafts(d, id) != []
    ensures id in d.conflicts && (d.conflicts[id].state == Resolved || d.conflicts[id].state == Closed)
  {
    hide Trail, ReplayedConflict, Applications;
    assert ConflictTracked(Lookup(d.conflicts, id), id, Trail(d.audits, ConflictResource, id));
    NothingApplied();
  }

  lemma NothingApplied()
    ensures Applications([]) == []
  {
  }

  /** No orphans: a proposal is a derived draft exactly when the log of some
      conflict, and of one only, records its application. */
  lemma DerivedDraftsHaveOneConflict(lib: Library, events: seq<Event>, draft: Id)
    ensures var d := After(lib, events).db;
            && (draft in d.proposals && Origin(d, draft) == Some(ProposalDerived) <==> exists c :: DraftOf(d, c, draft))
            && (forall b, c :: DraftOf(d, b, draft) && DraftOf(d, c, draft) ==> b == c)
  {
    hide After, Origin, AppliedDrafts, StoreOk;
    AlwaysOk(lib, events);
    var d := After(lib, events).db;
    OpenDrafts(lib, d);
    DraftsCorrespond(d, draft);
  }

  /** A request about to apply a suggestion succeeds exactly when the conflict is
      still in resolution_proposed, the draft's ID is free and the request ID is
      not blank; otherwise it is an internal error and changes nothing. */
  lemma ApplicationsAreDecidedByTheState(lib: Library, events: seq<Event>, who: nat, ids: Ids)
    requires who in After(lib, events).clients && After(lib, events).clients[who].stage.Commit?
    requires After(lib, events).clients[who].stage.tx.ApplySuggestion?
    ensures var s := After(lib, events); var c := s.clients[who]; var s' := Apply(lib, s, Act(who, ids));
            var id := c.stage.tx.conflict.id;
            && id in s.db.conflicts
            && if s.db.conflicts[id].state == ResolutionProposed && ids.row !in s.db.proposals && !Text.Blank(c.actor.requestId)
               then s'.clients[who].stage.Finished? && s'.clients[who].stage.reply.ProposalReply?
               else s'.clients[who].stage == Finished(Failure(Internal)) && s'.db == s.db
  {
    hide After, StoreOk, FreshDraft;
    AlwaysOk(lib, events);
    var s := After(lib, events);
    assert StageOk(lib, s.db, s.clients[who].stage, s.clients[who].actor);
  }

  // Why a commit is refused now: the row is not the copy that was read, or a code, an ID or the request ID stands in the way.
  ghost function CommitVerdict(d: Db, tx: Tx, actor: Actor, ids: Ids): Option<Error> {
    match tx
    case InsertParcel(p) =>
      if exists k :: k in d.parcels && d.parcels[k].code == p.code then Some(StateConflict)
      else if ids.row in d.parcels || Text.Blank(actor.requestId) then Some(Internal) else None
    case UpdateParcel(before, _, expected) =>
      if before.id !in d.parcels || d.parcels[before.id].version != expected || Text.Blank(actor.requestId) then Some(Internal) else None
    case InsertObservation(o) =>
      if (exists k :: k in d.observations && d.observations[k].code == o.code) || ids.row in d.observations || Text.Blank(actor.requestId)
      then Some(Internal) else None
    case MoveObservation(item, _, _, _) =>
      if Lookup(d.observations, item.id) != Some(item) || Text.Blank(actor.requestId) then Some(StateConflict) else None
    case InsertProposal(_) => if ids.row in d.proposals || Text.Blank(actor.requestId) then Some(Internal) else None
    case MoveProposal(item, _, _) =>
      if Lookup(d.proposals, item.id) != Some(item) || Text.Blank(actor.requestId) then Some(StateConflict) else None
    case MoveConflict(item, _) =>
      if Lookup(d.conflicts, item.id) != Some(item) || Text.Blank(actor.requestId) then Some(StateConflict) else None
    case ApplySuggestion(item, _) =>
      if Lookup(d.conflicts, item.id) != Some(item) || ids.row in d.proposals || Text.Blank(actor.requestId) then Some(Internal) else None
    case RecordRun(_, _, _) => None
  }

  lemma CommittingIsJudged(lib: Library, d: Db, tx: Tx, actor: Actor, ids: Ids)
    requires ParcelsOk(d) && TxOk(lib, d, tx, actor) && !tx.RecordRun?
    ensures match CommitVerdict(d, tx, actor, ids)
            case Some(error) => Execute(d, tx, actor, ids) == Err(error)
            case None => Execute(d, tx, actor, ids).Ok?
  {
    hide ParcelsOk, Text.Blank, FreshDraft, ReplacementOk, CanProposalTransition, CanConflictTransition, CanObservationTransition, MayMoveProposal;
    if Execute(d, tx, actor, ids).Ok? {
      GuardSeesTheCopy(lib, d, tx, actor, ids);
    }
  }

  /** In any interleaving, a transition commits exactly when its row is still the
      copy its request has read and the request ID is not blank, and otherwise is
      answered as a state conflict; every other commit but a detection's is decided
      by the codes, IDs and versions in the store, and what fails writes nothing. */
  lemma PendingCommitsAreDecided(lib: Library, events: seq<Event>, who: nat, ids: Ids)
    requires who in After(lib, events).clients && After(lib, events).clients[who].stage.Commit?
    requires !After(lib, events).clients[who].stage.tx.RecordRun?
    ensures var s := After(lib, events); var c := s.clients[who]; var s' := Apply(lib, s, Act(who, ids));
            match CommitVerdict(s.db, c.stage.tx, c.actor, ids)
            case Some(error) => s'.db == s.db && s'.clients[who].stage == Finished(Failure(error))
            case None => s'.db != s.db && s'.clients[who].stage.Finished? && !s'.clients[who].stage.reply.Failure?
  {
    hide After, StoreOk, Execute, TxOk, CommitVerdict;
    AlwaysOk(lib, events);
    var s := After(lib, events);
    var c := s.clients[who];
    assert StageOk(lib, s.db, c.stage, c.actor);
    assert ParcelsOk(s.db) by { OpenStore(lib, s.db); }
    CommittingIsJudged(lib, s.db, c.stage.tx, c.actor, ids);
    if Execute(s.db, c.stage.tx, c.actor, ids).Ok? {
      SuccessIsNotFailure(s.db, c.stage.tx, c.actor, ids);
      CommittingIsLogged(s.db, c.stage.tx, c.actor, ids);
    }
  }

  /** In particular, once a suggestion has been applied every other application of
      it fails and leaves no orphan draft. */
  lemma SecondApplicationFails(lib: Library, events: seq<Event>, who: nat, ids: Ids)
    requires who in After(lib, events).clients && After(lib, events).clients[who].stage.Commit?
    requires After(lib, events).clients[who].stage.tx.ApplySuggestion?
    requires AppliedDrafts(After(lib, events).db, After(lib, events).clients[who].stage.tx.conflict.id) != []
    ensures var s := After(lib, events); var s' := Apply(lib, s, Act(who, ids));
            s'.db == s.db && s'.clients[who].stage == Finished(Failure(Internal))
  {
    hide After, StoreOk, ParcelsOk, ObservationsOk, ProposalsOk, ConflictsOk, LinksOk, GroundedOk, RunsOk, Apply, AppliedDrafts;
    AlwaysOk(lib, events);
    var s := After(lib, events);
    OpenStore(lib, s.db);
    ApplicationsAreDecidedByTheState(lib, events, who, ids);
    AppliedIsSettled(s.db, s.clients[who].stage.tx.conflict.id);
  }

  // ---- Failures ----

  lemma {:induction false} FailuresWriteNothing(lib: Library, d: Db, c: Client, ids: Ids)
    ensures RunAlone(lib, d, c, ids).1.stage.reply.Failure? ==> RunAlone(lib, d, c, ids).0 == d
    decreases Remaining(c)
  {
    hide Execute, Reading, Remaining;
    if !c.stage.Finished? {
      StepsRunOut(lib, d, c, ids);
      if c.stage.Commit? && Execute(d, c.stage.tx, c.actor, ids).Ok? {
        RunCommit(lib, d, c, ids);
        SuccessIsNotFailure(d, c.stage.tx, c.actor, ids);
      } else {
        FailuresWriteNothing(lib, Step(lib, d, c, ids).0, Step(lib, d, c, ids).1, ids);
      }
    }
  }

  lemma SuccessIsNotFailure(d: Db, tx: Tx, actor: Actor, ids: Ids)
    requires Execute(d, tx, actor, ids).Ok?
    ensures !Execute(d, tx, actor, ids).value.reply.Failure? && !Text.Blank(actor.requestId)
  {
  }

  /** A request that is answered with an error has changed nothing. */
  lemma ErrorsLeaveNoTrace(lib: Library, d: Db, q: Request, actor: Actor, ids: Ids)
    ensures Serve(lib, d, q, actor, ids).1.Failure? ==> Serve(lib, d, q, actor, ids).0 == d
  {
    hide RunAlone;
    FailuresWriteNothing(lib, d, Client(q, actor, Start), ids);
  }

  // Only a successful commit writes, and it ends its request with a success.
  lemma WritingSucceeds(lib: Library, s: System, who: nat, ids: Ids)
    requires Apply(lib, s, Act(who, ids)).db != s.db
    ensures who in s.clients && Apply(lib, s, Act(who, ids)).clients[who].stage.Finished?
    ensures !Apply(lib, s, Act(who, ids)).clients[who].stage.reply.Failure?
  {
    hide Execute, Reading;
    var c := s.clients[who];
    if c.stage.Commit? && Execute(s.db, c.stage.tx, c.actor, ids).Ok? {
      SuccessIsNotFailure(s.db, c.stage.tx, c.actor, ids);
    }
  }

  lemma {:induction false} AnswersStay(lib: Library, events: seq<Event>, n: nat, who: nat)
    requires n <= |events| && who in After(lib, events[..n]).clients && After(lib, events[..n]).clients[who].stage.Finished?
    ensures who in After(lib, events).clients && After(lib, events).clients[who] == After(lib, events[..n]).clients[who]
    decreases |events|
  {
    hide Step;
    if n == |events| {
      assert events[..n] == events;
    } else {
      var front := events[..|events| - 1];
      assert front[..n] == events[..n];
      AnswersStay(lib, front, n, who);
    }
  }

  /** In any interleaving, a request that has been answered with an error has
      changed nothing by any of its own steps. */
  lemma FailedRequestsWroteNothing(lib: Library, events: seq<Event>, who: nat, n: nat, ids: Ids)
    requires who in After(lib, events).clients && After(lib, events).clients[who].stage.Finished?
    requires After(lib, events).clients[who].stage.reply.Failure?
    requires n < |events| && events[n] == Act(who, ids)
    ensures After(lib, events[..n + 1]).db == After(lib, events[..n]).db
  {
    assert events[..n + 1][..n] == events[..n] && events[..n + 1][n] == events[n];
    assert After(lib, events[..n + 1]) == Apply(lib, After(lib, events[..n]), Act(who, ids));
    if After(lib, events[..n + 1]).db != After(lib, events[..n]).db {
      hide Apply;
      WritingSucceeds(lib, After(lib, events[..n]), who, ids);
      AnswersStay(lib, events, n + 1, who);
    }
  }

  /** A request with a blank request ID never changes the store, at any stage. */
  lemma BlankRequestsWriteNothing(lib: Library, s: System, who: nat, ids: Ids)
    requires who in s.clients && Text.Blank(s.clients[who].actor.requestId)
    ensures Apply(lib, s, Act(who, ids)).db == s.db
  {
    hide Execute, Reading;
    var c := s.clients[who];
    if c.stage.Commit? && Execute(s.db, c.stage.tx, c.actor, ids).Ok? {
      SuccessIsNotFailure(s.db, c.stage.tx, c.actor, ids);
    }
  }
}
