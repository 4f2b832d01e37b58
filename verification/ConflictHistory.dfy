/**
 A conflict carries no version, but every entry of its log climbs its acyclic
 lifecycle: its log grows exactly when its rank rises.
 */
module ConflictHistory {
  import opened Basics
  import opened Lifecycles
  import opened Records
  import opened Transactions
  import opened Protocol
  import opened Trails
  import opened Growth
  import opened Invariants
  import opened Preservation
  import opened DetectionWrites
  import opened Interleaving

  function ConflictTrail(d: Db, id: Id): seq<AuditEntry> {
    Trail(d.audits, ConflictResource, id)
  }

  // The entry records that the conflict came to this state.
  predicate Shows(e: AuditEntry, state: ConflictState) {
    match e.after
    case ConflictImage(c) => c.state == state
    case ConflictChange(s) => s == state
    case AppliedChange(s, _) => s == state
    case _ => false
  }

  // One more entry in the trail, for one transition of the row.
  ghost predicate MovedOn(d: Db, d': Db, id: Id)
    requires id in d.conflicts && id in d'.conflicts
  {
    && CanConflictTransition(d.conflicts[id].state, d'.conflicts[id].state)
    && exists e :: ConflictTrail(d', id) == ConflictTrail(d, id) + [e] && Shows(e, d'.conflicts[id].state)
  }

  ghost predicate KeptOrMoved(d: Db, d': Db, id: Id) {
    && id in d.conflicts && id in d'.conflicts
    && ((ConflictTrail(d', id) == ConflictTrail(d, id) && d'.conflicts[id].state == d.conflicts[id].state) || MovedOn(d, d', id))
  }

  ghost predicate KeptOrRaised(d: Db, d': Db, id: Id) {
    && id in d.conflicts && id in d'.conflicts
    && (ConflictTrail(d', id) == ConflictTrail(d, id) || Rank(d.conflicts[id].state) < Rank(d'.conflicts[id].state))
  }

  lemma MovingRaises(d: Db, d': Db, id: Id)
    requires KeptOrMoved(d, d', id)
    ensures KeptOrRaised(d, d', id)
  {
    hide Trail;
  }

  // ---- One transaction ----

  lemma OtherTxsKeep(lib: Library, d: Db, tx: Tx, actor: Actor, ids: Ids, id: Id)
    requires !tx.MoveConflict? && !tx.ApplySuggestion? && !tx.RecordRun? && Execute(d, tx, actor, ids).Ok?
    ensures var d' := Execute(d, tx, actor, ids).value.db; d'.conflicts == d.conflicts && ConflictTrail(d', id) == ConflictTrail(d, id)
  {
    hide Trail;
    var d' := Execute(d, tx, actor, ids).value.db;
    OtherEntry(d.audits, d'.audits[|d.audits|], id);
  }

  // An entry about another conflict is not in this one's trail.
  lemma OtherEntry(log: seq<AuditEntry>, e: AuditEntry, id: Id)
    requires e.resource != ConflictResource || e.resourceId != id
    ensures Trail(log + [e], ConflictResource, id) == Trail(log, ConflictResource, id)
  {
    TrailSnoc(log, e, ConflictResource, id);
  }

  lemma OwnEntry(log: seq<AuditEntry>, e: AuditEntry, id: Id)
    requires e.resource == ConflictResource && e.resourceId == id
    ensures Trail(log + [e], ConflictResource, id) == Trail(log, ConflictResource, id) + [e]
  {
    TrailSnoc(log, e, ConflictResource, id);
  }

  lemma MoveMovesOn(d: Db, item: Conflict, to: ConflictState, actor: Actor, ids: Ids, id: Id)
    requires CanConflictTransition(item.state, to) && Execute(d, MoveConflict(item, to), actor, ids).Ok? && id in d.conflicts
    ensures KeptOrMoved(d, Execute(d, MoveConflict(item, to), actor, ids).value.db, id)
  {
    hide Trail;
    var d', n := Execute(d, MoveConflict(item, to), actor, ids).value.db, |d.audits|;
    if id == item.id {
      OwnEntry(d.audits, d'.audits[n], id);
    } else {
      OtherEntry(d.audits, d'.audits[n], id);
    }
  }

  lemma ApplyMovesOn(d: Db, item: Conflict, derived: Proposal, actor: Actor, ids: Ids, id: Id)
    requires item.state == ResolutionProposed && Execute(d, ApplySuggestion(item, derived), actor, ids).Ok? && id in d.conflicts
    ensures KeptOrMoved(d, Execute(d, ApplySuggestion(item, derived), actor, ids).value.db, id)
  {
    hide Trail;
    var d', n := Execute(d, ApplySuggestion(item, derived), actor, ids).value.db, |d.audits|;
    var first, second := d'.audits[n], d'.audits[n + 1];
    assert d'.audits == d.audits + [first] + [second];
    OtherEntry(d.audits, first, id);
    if id == item.id {
      OwnEntry(d.audits + [first], second, id);
    } else {
      OtherEntry(d.audits + [first], second, id);
    }
  }

  // A conflict as detection leaves it: detected, with the one entry that says so.
  ghost predicate New(d: Db, id: Id) {
    && id in d.conflicts && d.conflicts[id].state == Detected
    && exists e :: ConflictTrail(d, id) == [e] && Shows(e, Detected)
  }

  lemma {:induction false} InsertingLeavesTrails(d: Db, items: seq<Conflict>, ids: seq<Id>, actor: Actor, parcelId: Id, id: Id)
    requires InsertConflicts(d, items, ids, actor, parcelId).Some? && id in d.conflicts
    ensures var d' := InsertConflicts(d, items, ids, actor, parcelId).value;
            id in d'.conflicts && d'.conflicts[id] == d.conflicts[id] && ConflictTrail(d', id) == ConflictTrail(d, id)
  {
    hide Trail;
    if items != [] {
      var n := |items| - 1;
      InsertingLeavesTrails(d, items[..n], ids, actor, parcelId, id);
      var mid := InsertConflicts(d, items[..n], ids, actor, parcelId).value;
      OtherEntry(mid.audits, ConflictEntry(actor, parcelId, items[n].(id := ids[n])), id);
    }
  }

  lemma {:induction false} InsertingStartsTrails(d: Db, items: seq<Conflict>, ids: seq<Id>, actor: Actor, parcelId: Id, id: Id)
    requires InsertConflicts(d, items, ids, actor, parcelId).Some? && id !in d.conflicts && ConflictTrail(d, id) == []
    requires forall i :: 0 <= i < |items| ==> items[i].state == Detected
    ensures var d' := InsertConflicts(d, items, ids, actor, parcelId).value;
            if id in d'.conflicts then New(d', id) else ConflictTrail(d', id) == []
  {
    hide Trail;
    if items != [] {
      var n := |items| - 1;
      InsertingStartsTrails(d, items[..n], ids, actor, parcelId, id);
      var mid, e := InsertConflicts(d, items[..n], ids, actor, parcelId).value, ConflictEntry(actor, parcelId, items[n].(id := ids[n]));
      if ids[n] == id {
        OwnEntry(mid.audits, e, id);
        assert [] + [e] == [e];
      } else {
        OtherEntry(mid.audits, e, id);
      }
    }
  }

  lemma RecordingStartsTrails(d: Db, items: seq<Conflict>, run: DetectionRun, parcelId: Id, actor: Actor, ids: Ids, id: Id)
    requires Execute(d, RecordRun(items, run, parcelId), actor, ids).Ok? && (id in d.conflicts || ConflictTrail(d, id) == [])
    requires forall i :: 0 <= i < |items| ==> items[i].state == Detected
    ensures var d' := Execute(d, RecordRun(items, run, parcelId), actor, ids).value.db;
            if id in d.conflicts then KeptOrMoved(d, d', id) else id in d'.conflicts ==> New(d', id)
  {
    hide Trail, InsertConflicts;
    var d', mid := Execute(d, RecordRun(items, run, parcelId), actor, ids).value.db, InsertConflicts(d, items, ids.items, actor, parcelId).value;
    if id in d.conflicts {
      InsertingLeavesTrails(d, items, ids.items, actor, parcelId, id);
    } else {
      InsertingStartsTrails(d, items, ids.items, actor, parcelId, id);
    }
    OtherEntry(mid.audits, d'.audits[|mid.audits|], id);
  }

  // ---- Every run ----

  // What one step does to a conflict: nothing, one transition, or its detection.
  ghost predicate Stepped(d: Db, d': Db, id: Id) {
    if id in d.conflicts then KeptOrMoved(d, d', id) else id in d'.conflicts ==> New(d', id)
  }

  lemma AbsentIsSilent(lib: Library, d: Db, id: Id)
    requires StoreOk(lib, d)
    ensures id in d.conflicts || ConflictTrail(d, id) == []
  {
    hide ParcelsOk, ObservationsOk, ProposalsOk, LinksOk, GroundedOk, RunsOk, DraftsOk, ReplayedConflict, Applications;
    assert ConflictTracked(Lookup(d.conflicts, id), id, Trail(d.audits, ConflictResource, id));
  }

  lemma TransactionSteps(lib: Library, d: Db, tx: Tx, actor: Actor, ids: Ids, id: Id)
    requires TxOk(lib, d, tx, actor) && Execute(d, tx, actor, ids).Ok? && (id in d.conflicts || ConflictTrail(d, id) == [])
    ensures Stepped(d, Execute(d, tx, actor, ids).value.db, id)
  {
    hide KeptOrMoved, New, Trail;
    match tx
    case MoveConflict(item, to) =>
      if id in d.conflicts { MoveMovesOn(d, item, to, actor, ids, id); }
    case ApplySuggestion(item, derived) =>
      if id in d.conflicts { ApplyMovesOn(d, item, derived, actor, ids, id); }
    case RecordRun(items, run, parcelId) =>
      hide Execute;
      RecordingStartsTrails(d, items, run, parcelId, actor, ids, id);
    case _ =>
      OtherTxsKeep(lib, d, tx, actor, ids, id);
      NothingHappened(d, Execute(d, tx, actor, ids).value.db, id);
  }

  lemma NothingHappened(d: Db, d': Db, id: Id)
    requires d'.conflicts == d.conflicts && ConflictTrail(d', id) == ConflictTrail(d, id)
    ensures Stepped(d, d', id)
  {
    hide Trail;
  }

  lemma EventSteps(lib: Library, s: System, event: Event, id: Id)
    requires SystemOk(lib, s)
    ensures Stepped(s.db, Apply(lib, s, event).db, id)
  {
    hide StoreOk, TxOk, Execute, Reading, Trail, Stepped;
    AbsentIsSilent(lib, s.db, id);
    NothingHappened(s.db, s.db, id);
    if event.Act? && Busy(s, event.who) {
      var c := s.clients[event.who];
      assert StageOk(lib, s.db, c.stage, c.actor);
      if c.stage.Commit? && Execute(s.db, c.stage.tx, c.actor, event.ids).Ok? {
        TransactionSteps(lib, s.db, c.stage.tx, c.actor, event.ids, id);
      }
    }
  }

  /** Between any two moments of a run a conflict's log is unchanged, or its row
      has climbed its lifecycle. */
  lemma {:induction false} ConflictsClimb(lib: Library, events: seq<Event>, n: nat, id: Id)
    requires n <= |events| && id in After(lib, events[..n]).db.conflicts
    ensures KeptOrRaised(After(lib, events[..n]).db, After(lib, events).db, id)
    decreases |events|
  {
    hide Apply, StoreOk, Trail;
    if n == |events| {
      assert events[..n] == events;
    } else {
      var front := events[..|events| - 1];
      assert front[..n] == events[..n];
      ConflictsClimb(lib, front, n, id);
      AlwaysOk(lib, front);
      EventSteps(lib, After(lib, front), events[|events| - 1], id);
      MovingRaises(After(lib, front).db, After(lib, events).db, id);
      EventIsOk(lib, After(lib, front), events[|events| - 1]);
      assert ConflictLater(After(lib, front).db.conflicts[id], After(lib, events).db.conflicts[id]);
      RunsGoForward(lib, front, n);
      assert ConflictLater(After(lib, events[..n]).db.conflicts[id], After(lib, front).db.conflicts[id]);
    }
  }

  // ---- The states a conflict has been in ----

  const RESOLVING := [Detected, Confirmed, ResolutionProposed, Resolved, Closed]
  const DISMISSING := [Detected, FalsePositive, Closed]

  // The log shows the first states of the path, one for each entry; the row is at the last.
  ghost predicate OnPath(t: seq<AuditEntry>, state: ConflictState, path: seq<ConflictState>) {
    && 1 <= |t| <= |path| && state == path[|t| - 1]
    && forall i :: 0 <= i < |t| ==> Shows(t[i], path[i])
  }

  ghost predicate OnAPath(d: Db, id: Id)
    requires id in d.conflicts
  {
    var t, state := ConflictTrail(d, id), d.conflicts[id].state;
    OnPath(t, state, RESOLVING) || OnPath(t, state, DISMISSING)
  }

  lemma NextOnPath(t: seq<AuditEntry>, e: AuditEntry, from: ConflictState, to: ConflictState)
    requires OnPath(t, from, RESOLVING) || OnPath(t, from, DISMISSING)
    requires CanConflictTransition(from, to) && Shows(e, to)
    ensures OnPath(t + [e], to, RESOLVING) || OnPath(t + [e], to, DISMISSING)
  {
    hide Shows;
    var path := if to == FalsePositive || from == FalsePositive then DISMISSING else RESOLVING;
    assert to == path[|t|];
    assert forall i :: 0 <= i < |t| ==> Shows(t[i], path[i]);
  }

  lemma StepStaysOnPath(d: Db, d': Db, id: Id)
    requires Stepped(d, d', id) && id in d'.conflicts && (id in d.conflicts ==> OnAPath(d, id))
    ensures OnAPath(d', id)
  {
    hide Trail, Shows;
    if id in d.conflicts && MovedOn(d, d', id) {
      var e :| ConflictTrail(d', id) == ConflictTrail(d, id) + [e] && Shows(e, d'.conflicts[id].state);
      hide OnPath;
      NextOnPath(ConflictTrail(d, id), e, d.conflicts[id].state, d'.conflicts[id].state);
    }
  }

  /** In every reachable state the log of a conflict shows the first states of
      detected, confirmed, resolution_proposed, resolved, closed, or of detected,
      false_positive, closed, one for each entry, and the row is at the last. */
  lemma {:induction false} ConflictsFollowAPath(lib: Library, events: seq<Event>, id: Id)
    requires id in After(lib, events).db.conflicts
    ensures OnAPath(After(lib, events).db, id)
  {
    hide Apply, SystemOk, OnAPath, Stepped;
    if events != [] {
      var front := events[..|events| - 1];
      AlwaysOk(lib, front);
      EventSteps(lib, After(lib, front), events[|events| - 1], id);
      if id in After(lib, front).db.conflicts {
        ConflictsFollowAPath(lib, front, id);
      }
      StepStaysOnPath(After(lib, front).db, After(lib, events).db, id);
    }
  }

  /** So the length of its log says how far a conflict has come. */
  lemma LogLengthTellsState(lib: Library, events: seq<Event>, id: Id)
    requires id in After(lib, events).db.conflicts
    ensures var d := After(lib, events).db; var state, n := d.conflicts[id].state, |ConflictTrail(d, id)|;
            && (state == Detected <==> n == 1)
            && (state == Confirmed || state == FalsePositive <==> n == 2)
            && (state == Resolved <==> n == 4)
            && (n == 3 ==> state == ResolutionProposed || state == Closed)
            && (state == Closed ==> n == 3 || n == 5) && n <= 5
  {
    hide After, Trail, Shows;
    ConflictsFollowAPath(lib, events, id);
  }
}
