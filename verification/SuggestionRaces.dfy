/**
 Requests racing to apply one suggestion: whoever settles the conflict first,
 the other application is answered as an internal error.
 */
module SuggestionRaces {
  import opened Basics
  import Text
  import opened Lifecycles
  import opened Polygons
  import opened Records
  import opened Transactions
  import opened Protocol
  import opened Trails
  import opened Invariants
  import opened Preservation
  import opened Interleaving
  import opened Calls
  import opened Races

  // A suggestion that can be applied now.
  ghost predicate Applicable(lib: Library, d: Db, id: Id) {
    && id in d.conflicts && d.conflicts[id].id == id && d.conflicts[id].state == ResolutionProposed
    && d.conflicts[id].suggestion != "" && Parsed(lib.engine, d.conflicts[id].suggestion).Some?
    && d.conflicts[id].proposalId in d.proposals && d.proposals[d.conflicts[id].proposalId].parcelId in d.parcels
  }

  ghost predicate MayApply(q: Call, id: Id) {
    && q.request.ApplyRequest? && q.request.id == id && (q.actor.role == Reviewer || q.actor.role == Admin)
    && !Text.Blank(q.actor.requestId)
  }

  function Application(lib: Library, d: Db, q: Call): Tx
    requires q.request.ApplyRequest? && Applicable(lib, d, q.request.id)
  {
    var conflict := d.conflicts[q.request.id];
    var source := d.proposals[conflict.proposalId];
    ApplySuggestion(conflict, DerivedProposal(lib, conflict, source, d.parcels[source.parcelId], q.request.rationale, q.actor))
  }

  lemma LooksOfApplication(lib: Library, d: Db, q: Call)
    requires q.request.ApplyRequest? && Applicable(lib, d, q.request.id) && MayApply(q, q.request.id)
    ensures LooksTo(lib, d, NewClient(q), 3, Commit(Application(lib, d, q)))
  {
    hide DerivedProposal;
    var conflict := d.conflicts[q.request.id];
    var source := d.proposals[conflict.proposalId];
    var c, last := NewClient(q), Commit(Application(lib, d, q));
    var first, second := ReadSource(conflict, q.request.rationale), ReadSourceParcel(conflict, source, q.request.rationale);
    NoLook(lib, d, c.(stage := last));
    OneLook(lib, d, c.(stage := second), last, 0, last);
    OneLook(lib, d, c.(stage := first), second, 1, last);
    OneLook(lib, d, c, first, 2, last);
  }

  lemma LooksOfMove(lib: Library, d: Db, q: Call)
    requires q.request.MoveConflictRequest? && q.request.id in d.conflicts
    requires CanConflictTransition(d.conflicts[q.request.id].state, q.request.conflictTo)
    ensures LooksTo(lib, d, NewClient(q), 1, Commit(MoveConflict(d.conflicts[q.request.id], q.request.conflictTo)))
  {
    var last := Commit(MoveConflict(d.conflicts[q.request.id], q.request.conflictTo));
    NoLook(lib, d, NewClient(q).(stage := last));
    OneLook(lib, d, NewClient(q), last, 0, last);
  }

  lemma FirstApplicationWins(d: Db, tx: Tx, actor: Actor, ids: Ids)
    requires tx.ApplySuggestion? && tx.conflict.id in d.conflicts && d.conflicts[tx.conflict.id] == tx.conflict && tx.conflict.state == ResolutionProposed
    requires ids.row !in d.proposals && !Text.Blank(actor.requestId)
    ensures Execute(d, tx, actor, ids).Ok?
    ensures var done := Execute(d, tx, actor, ids).value;
            done.reply.ProposalReply? && tx.conflict.id in done.db.conflicts && done.db.conflicts[tx.conflict.id].state == Resolved
  {
  }

  lemma LateApplicationFails(d: Db, tx: Tx, actor: Actor, ids: Ids)
    requires tx.ApplySuggestion? && tx.conflict.state == ResolutionProposed
    requires tx.conflict.id in d.conflicts && d.conflicts[tx.conflict.id].state == Resolved
    ensures Execute(d, tx, actor, ids) == Err(Internal)
  {
  }

  /** An application that another application beats is answered as an internal
      error. */
  lemma ApplicationLosesToApplication(lib: Library, events: seq<Event>, id: Id, a: nat, qa: Call, b: nat, qb: Call)
    requires Applicable(lib, After(lib, events).db, id) && MayApply(qa, id) && MayApply(qb, id)
    requires a != b && a !in After(lib, events).clients && b !in After(lib, events).clients
    requires qb.ids.row !in After(lib, events).db.proposals
    ensures var s' := After(lib, events + Race(a, qa, 3, b, qb, 3));
            && b in s'.clients && s'.clients[b].stage.Finished? && s'.clients[b].stage.reply.ProposalReply?
            && a in s'.clients && s'.clients[a].stage == Finished(Failure(Internal))
  {
    var d := After(lib, events).db;
    LooksOfApplication(lib, d, qa);
    LooksOfApplication(lib, d, qb);
    var ta, tb := Application(lib, d, qa), Application(lib, d, qb);
    hide After, LooksTo, Execute;
    RaceEnds(lib, events, a, qa, 3, b, qb, 3, ta, tb);
    FirstApplicationWins(d, tb, qb.actor, qb.ids);
    LateApplicationFails(Execute(d, tb, qb.actor, qb.ids).value.db, ta, qa.actor, qa.ids);
  }

  lemma FirstMoveWins(d: Db, item: Conflict, actor: Actor, ids: Ids)
    requires item.id in d.conflicts && d.conflicts[item.id] == item && !Text.Blank(actor.requestId)
    ensures var done := Execute(d, MoveConflict(item, Resolved), actor, ids);
            && done.Ok? && done.value.reply.ConflictReply?
            && item.id in done.value.db.conflicts && done.value.db.conflicts[item.id].state == Resolved
            && AppliedDrafts(done.value.db, item.id) == AppliedDrafts(d, item.id)
  {
    var d' := Execute(d, MoveConflict(item, Resolved), actor, ids).value.db;
    TrailSnoc(d.audits, d'.audits[|d.audits|], ConflictResource, item.id);
    ApplicationsSnoc(Trail(d.audits, ConflictResource, item.id), d'.audits[|d.audits|]);
  }

  /** ... and so is one that a plain transition to resolved beats, although nobody
      has applied the suggestion. */
  lemma ApplicationLosesToTransition(lib: Library, events: seq<Event>, id: Id, a: nat, qa: Call, b: nat, qb: Call)
    requires Applicable(lib, After(lib, events).db, id) && MayApply(qa, id)
    requires qb.request == MoveConflictRequest(id, Resolved) && !Text.Blank(qb.actor.requestId)
    requires a != b && a !in After(lib, events).clients && b !in After(lib, events).clients
    ensures var s' := After(lib, events + Race(a, qa, 3, b, qb, 1));
            && b in s'.clients && s'.clients[b].stage.Finished? && s'.clients[b].stage.reply.ConflictReply?
            && a in s'.clients && s'.clients[a].stage == Finished(Failure(Internal))
            && AppliedDrafts(s'.db, id) == []
  {
    var d := After(lib, events).db;
    LooksOfApplication(lib, d, qa);
    LooksOfMove(lib, d, qb);
    var ta, tb := Application(lib, d, qa), MoveConflict(d.conflicts[id], Resolved);
    NothingAppliedYet(lib, events, id);
    hide After, LooksTo, Execute, AppliedDrafts;
    RaceEnds(lib, events, a, qa, 3, b, qb, 1, ta, tb);
    FirstMoveWins(d, d.conflicts[id], qb.actor, qb.ids);
    LateApplicationFails(Execute(d, tb, qb.actor, qb.ids).value.db, ta, qa.actor, qa.ids);
  }

  lemma NothingAppliedYet(lib: Library, events: seq<Event>, id: Id)
    requires id in After(lib, events).db.conflicts && After(lib, events).db.conflicts[id].state == ResolutionProposed
    ensures AppliedDrafts(After(lib, events).db, id) == []
  {
    hide After, Trail, ReplayedConflict, Applications;
    AlwaysOk(lib, events);
    var d := After(lib, events).db;
    assert ConflictTracked(Lookup(d.conflicts, id), id, Trail(d.audits, ConflictResource, id));
  }
}
