/**
 Who signed the audit log: every entry a request leaves names its actor and its
 request ID, and the row it belongs to.
 */
module Signatures {
  import opened Basics
  import Text
  import opened Lifecycles
  import opened Records
  import opened Transactions
  import opened Protocol
  import opened Growth
  import opened Invariants
  import opened DetectionWrites
  import opened Interleaving
  import opened Refinement
  import opened Idempotency
  import opened ExactlyOnce
  import opened Reviews

  // The row an entry is filed under besides its own: the parcel, or the proposal of a run, or the derived draft.
  ghost predicate FiledRight(d: Db, e: AuditEntry) {
    match e.resource
    case ParcelResource =>
      e.resourceId in d.parcels && e.related == Some(e.resourceId) && e.action == if e.before == Nothing then ParcelCreated else ParcelUpdated
    case ObservationResource => e.resourceId in d.observations && e.related == Some(d.observations[e.resourceId].parcelId)
    case ProposalResource => e.resourceId in d.proposals && e.related == Some(d.proposals[e.resourceId].parcelId)
    case RunResource => e.resourceId in d.runs && e.related == Some(d.runs[e.resourceId].proposalId) && e.after == RunImage(d.runs[e.resourceId])
    case ConflictResource =>
      && e.resourceId in d.conflicts
      && match e.action
         case ConflictDetected =>
           var p := d.conflicts[e.resourceId].proposalId; p in d.proposals && e.related == Some(d.proposals[p].parcelId)
         case ConflictMoved => e.related == None
         case SuggestionApplied => e.after.AppliedChange? && e.related == Some(e.after.proposalId)
         case _ => false
  }

  ghost predicate SignedBy(e: AuditEntry, actor: Actor) {
    e.actorId == actor.id && e.actorName == actor.username && e.requestId == actor.requestId && !Text.Blank(e.requestId)
  }

  ghost predicate AllSigned(d: Db, d': Db, actor: Actor) {
    && d.audits <= d'.audits
    && forall i :: |d.audits| <= i < |d'.audits| ==> SignedBy(d'.audits[i], actor) && FiledRight(d', d'.audits[i])
  }

  // ---- One transaction ----

  lemma RowTxsAreSigned(lib: Library, d: Db, tx: Tx, actor: Actor, ids: Ids)
    requires !tx.RecordRun? && !tx.MoveProposal? && !tx.MoveObservation? && TxOk(lib, d, tx, actor) && Execute(d, tx, actor, ids).Ok?
    ensures AllSigned(d, Execute(d, tx, actor, ids).value.db, actor)
  {
    hide Text.Blank, Grounded;
  }

  lemma MovesAreSigned(lib: Library, d: Db, tx: Tx, actor: Actor, ids: Ids)
    requires tx.MoveProposal? || tx.MoveObservation?
    requires ParcelsOk(d) && TxOk(lib, d, tx, actor) && Execute(d, tx, actor, ids).Ok?
    ensures AllSigned(d, Execute(d, tx, actor, ids).value.db, actor)
  {
    hide Text.Blank, ParcelsOk;
    GuardSeesTheCopy(lib, d, tx, actor, ids);
  }

  lemma {:induction false} InsertedEntries(d: Db, items: seq<Conflict>, ids: seq<Id>, actor: Actor, parcelId: Id)
    requires InsertConflicts(d, items, ids, actor, parcelId).Some?
    ensures |items| <= |ids|
    ensures var d' := InsertConflicts(d, items, ids, actor, parcelId).value;
            && d.audits <= d'.audits && |d'.audits| == |d.audits| + |items|
            && forall i :: 0 <= i < |items| ==> d'.audits[|d.audits| + i] == ConflictEntry(actor, parcelId, items[i].(id := ids[i]))
  {
    if items != [] {
      InsertedEntries(d, items[..|items| - 1], ids, actor, parcelId);
    }
  }

  lemma DetectedIsFiled(d: Db, actor: Actor, parcelId: Id, row: Conflict)
    requires row.id in d.conflicts && d.conflicts[row.id] == row && !Text.Blank(actor.requestId)
    requires row.proposalId in d.proposals && d.proposals[row.proposalId].parcelId == parcelId
    ensures SignedBy(ConflictEntry(actor, parcelId, row), actor) && FiledRight(d, ConflictEntry(actor, parcelId, row))
  {
    hide Text.Blank;
  }

  // The store and the log after a run has been recorded.
  lemma RecordedLog(d: Db, items: seq<Conflict>, run: DetectionRun, parcelId: Id, actor: Actor, ids: Ids)
    requires Execute(d, RecordRun(items, run, parcelId), actor, ids).Ok?
    ensures InsertConflicts(d, items, ids.items, actor, parcelId).Some? && !Text.Blank(actor.requestId)
    ensures var d', mid := Execute(d, RecordRun(items, run, parcelId), actor, ids).value.db, InsertConflicts(d, items, ids.items, actor, parcelId).value;
            && ConflictsAdded(d, mid, items, ids.items) && d'.conflicts == mid.conflicts && d'.proposals == d.proposals
            && |mid.audits| == |d.audits| + |items| && |d'.audits| == |mid.audits| + 1 && mid.audits <= d'.audits
            && SignedBy(d'.audits[|mid.audits|], actor) && FiledRight(d', d'.audits[|mid.audits|])
  {
    hide InsertConflicts, Text.Blank;
    InsertedEntries(d, items, ids.items, actor, parcelId);
    InsertingAdds(d, items, ids.items, actor, parcelId);
  }

  // The entry of item k, once the run has been recorded.
  lemma ItemIsSigned(d: Db, tx: Tx, actor: Actor, ids: Ids, k: nat)
    requires tx.RecordRun? && Execute(d, tx, actor, ids).Ok? && k < |tx.items|
    requires tx.run.proposalId in d.proposals && d.proposals[tx.run.proposalId].parcelId == tx.parcelId
    requires tx.items[k].proposalId == tx.run.proposalId
    ensures var d' := Execute(d, tx, actor, ids).value.db;
            |d.audits| + k < |d'.audits| && SignedBy(d'.audits[|d.audits| + k], actor) && FiledRight(d', d'.audits[|d.audits| + k])
  {
    RecordedLog(d, tx.items, tx.run, tx.parcelId, actor, ids);
    InsertedEntries(d, tx.items, ids.items, actor, tx.parcelId);
    hide InsertConflicts, Text.Blank, Execute, SignedBy, FiledRight, ConflictEntry;
    var d', mid := Execute(d, tx, actor, ids).value.db, InsertConflicts(d, tx.items, ids.items, actor, tx.parcelId).value;
    assert d'.audits[|d.audits| + k] == mid.audits[|d.audits| + k];
    DetectedIsFiled(d', actor, tx.parcelId, tx.items[k].(id := ids.items[k]));
  }

  // The length of the log, and its last entry.
  lemma RunLog(d: Db, tx: Tx, actor: Actor, ids: Ids)
    requires tx.RecordRun? && Execute(d, tx, actor, ids).Ok?
    ensures var d' := Execute(d, tx, actor, ids).value.db; var last := |d.audits| + |tx.items|;
            d.audits <= d'.audits && |d'.audits| == last + 1 && SignedBy(d'.audits[last], actor) && FiledRight(d', d'.audits[last])
  {
    hide InsertConflicts, Text.Blank, Execute, SignedBy, FiledRight, RowsAdded;
    RecordedLog(d, tx.items, tx.run, tx.parcelId, actor, ids);
  }

  lemma RunsAreSigned(lib: Library, d: Db, tx: Tx, actor: Actor, ids: Ids)
    requires tx.RecordRun? && TxOk(lib, d, tx, actor) && Execute(d, tx, actor, ids).Ok?
    requires tx.run.proposalId in d.proposals && d.proposals[tx.run.proposalId].parcelId == tx.parcelId
    ensures AllSigned(d, Execute(d, tx, actor, ids).value.db, actor)
  {
    hide Text.Blank, Execute, SignedBy, FiledRight;
    RunLog(d, tx, actor, ids);
    var d' := Execute(d, tx, actor, ids).value.db;
    forall i | |d.audits| <= i < |d'.audits| ensures SignedBy(d'.audits[i], actor) && FiledRight(d', d'.audits[i]) {
      if i < |d.audits| + |tx.items| {
        ItemIsSigned(d, tx, actor, ids, i - |d.audits|);
      }
    }
  }

  lemma DetectionsKnowTheirParcel(lib: Library, d: Db, c: Client)
    requires c.request.DetectRequest? && c.stage.Commit? && DetectionOk(lib, d, c.request, c.actor, c.stage)
    ensures c.stage.tx.RecordRun? && c.stage.tx.run.proposalId in d.proposals
    ensures d.proposals[c.stage.tx.run.proposalId].parcelId == c.stage.tx.parcelId
  {
    hide KeyAccepted, WantedHash;
  }

  /** Every entry a commit leaves names the actor, the username and the non-blank
      request ID of its request, and is filed under the rows it belongs to. */
  lemma CommitsAreSigned(lib: Library, events: seq<Event>, who: nat, ids: Ids)
    requires Commits(After(lib, events), who, ids)
    ensures var s := After(lib, events); AllSigned(s.db, Apply(lib, s, Act(who, ids)).db, s.clients[who].actor)
  {
    hide After, StoreOk, TxOk, Execute, AllSigned, DetectionOk, FromRequest;
    AlwaysOk(lib, events);
    AlwaysFromRequests(lib, events);
    DetectionsAlwaysOk(lib, events);
    var s := After(lib, events);
    var c := s.clients[who];
    var tx := c.stage.tx;
    assert TxOk(lib, s.db, tx, c.actor);
    assert FromRequest(lib, s.db, c);
    CommitsOfDetections(lib, s.db, c);
    if tx.RecordRun? {
      DetectionsKnowTheirParcel(lib, s.db, c);
      RunsAreSigned(lib, s.db, tx, c.actor, ids);
    } else if tx.MoveProposal? || tx.MoveObservation? {
      assert ParcelsOk(s.db) by { OpenStore(lib, s.db); }
      MovesAreSigned(lib, s.db, tx, c.actor, ids);
    } else {
      RowTxsAreSigned(lib, s.db, tx, c.actor, ids);
    }
  }

  // ---- Every run ----

  lemma FilingStays(d: Db, d': Db, e: AuditEntry)
    requires Later(d, d') && FiledRight(d, e)
    ensures FiledRight(d', e)
  {
    match e.resource
    case ObservationResource => assert ObservationLater(d.observations[e.resourceId], d'.observations[e.resourceId]);
    case ProposalResource => assert ProposalLater(d.proposals[e.resourceId], d'.proposals[e.resourceId]);
    case ConflictResource =>
      assert ConflictLater(d.conflicts[e.resourceId], d'.conflicts[e.resourceId]);
      if e.action == ConflictDetected {
        assert ProposalLater(d.proposals[d.conflicts[e.resourceId].proposalId], d'.proposals[d.conflicts[e.resourceId].proposalId]);
      }
    case _ =>
  }

  // Entry i of the log was left by a commit of a client with this actor.
  ghost predicate LeftBy(lib: Library, events: seq<Event>, i: nat, who: nat) {
    var s := After(lib, events);
    && i < |s.db.audits| && who in s.clients
    && SignedBy(s.db.audits[i], s.clients[who].actor) && FiledRight(s.db, s.db.audits[i])
    && s.clients[who].stage.Finished? && !s.clients[who].stage.reply.Failure?
  }

  /** In every reachable state each entry of the log was left by a request that has
      succeeded, names its actor and request ID, and is filed under existing rows. */
  lemma {:induction false} EntriesAreSigned(lib: Library, events: seq<Event>, i: nat)
    requires i < |After(lib, events).db.audits|
    ensures exists who :: LeftBy(lib, events, i, who)
  {
    hide SystemOk, Apply, FiledRight, SignedBy, Later;
    if events != [] {
      var front, event := events[..|events| - 1], events[|events| - 1];
      var s := After(lib, front);
      assert After(lib, events) == Apply(lib, s, event);
      AlwaysOk(lib, front);
      EventIsOk(lib, s, event);
      if i < |s.db.audits| {
        EntriesAreSigned(lib, front, i);
        var who :| LeftBy(lib, front, i, who);
        EntryStays(lib, s, event, i, who);
        assert LeftBy(lib, events, i, who);
      } else {
        NewEntry(lib, front, event, i);
        assert LeftBy(lib, events, i, event.who);
      }
    }
  }

  lemma EntryStays(lib: Library, s: System, event: Event, i: nat, who: nat)
    requires i < |s.db.audits| && who in s.clients && s.clients[who].stage.Finished? && FiledRight(s.db, s.db.audits[i])
    requires Later(s.db, Apply(lib, s, event).db)
    ensures var s' := Apply(lib, s, event);
            && i < |s'.db.audits| && s'.db.audits[i] == s.db.audits[i] && who in s'.clients && s'.clients[who] == s.clients[who]
            && FiledRight(s'.db, s'.db.audits[i])
  {
    hide Step, FiledRight;
    FilingStays(s.db, Apply(lib, s, event).db, s.db.audits[i]);
  }

  lemma NewEntry(lib: Library, front: seq<Event>, event: Event, i: nat)
    requires |After(lib, front).db.audits| <= i < |Apply(lib, After(lib, front), event).db.audits|
    ensures event.Act?
    ensures var s' := Apply(lib, After(lib, front), event);
            && event.who in s'.clients && SignedBy(s'.db.audits[i], s'.clients[event.who].actor) && FiledRight(s'.db, s'.db.audits[i])
            && s'.clients[event.who].stage.Finished? && !s'.clients[event.who].stage.reply.Failure?
  {
    hide After, Execute, FiledRight, SignedBy;
    var s := After(lib, front);
    OnlyCommitsWrite(lib, s, event);
    WritingSucceeds(lib, s, event.who, event.ids);
    CommitsAreSigned(lib, front, event.who, event.ids);
  }
}
