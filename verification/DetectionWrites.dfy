/**
 The transaction of a detection run: its conflicts, its run record and their
 audit entries, kept or dropped together.
 */
module DetectionWrites {
  import opened Basics
  import opened Lifecycles
  import opened Records
  import opened Transactions
  import opened Trails
  import opened Growth
  import opened Invariants
  import opened Preservation

  // The rows of `table'` are those of `table` and the numbered items, under distinct new IDs.
  ghost predicate RowsAdded(table: map<Id, Conflict>, table': map<Id, Conflict>, items: seq<Conflict>, ids: seq<Id>) {
    && |items| <= |ids|
    && (forall i, j :: 0 <= i < j < |items| ==> ids[i] != ids[j])
    && (forall i :: 0 <= i < |items| ==> ids[i] !in table && ids[i] in table' && table'[ids[i]] == items[i].(id := ids[i]))
    && (forall k :: k in table ==> k in table' && table'[k] == table[k])
    && (forall k :: k in table' && k !in table ==> k in ids[..|items|])
  }

  // ... and nothing else changes, except for entries about them.
  ghost predicate ConflictsAdded(d: Db, d': Db, items: seq<Conflict>, ids: seq<Id>) {
    && d' == d.(conflicts := d'.conflicts, audits := d'.audits)
    && RowsAdded(d.conflicts, d'.conflicts, items, ids)
    && d.audits <= d'.audits
    && (forall i :: |d.audits| <= i < |d'.audits| ==> d'.audits[i].resource == ConflictResource && d'.audits[i].action == ConflictDetected)
  }

  lemma OneMoreRow(table: map<Id, Conflict>, mid: map<Id, Conflict>, items: seq<Conflict>, ids: seq<Id>, last: Conflict, id: Id)
    requires RowsAdded(table, mid, items, ids) && |items| < |ids| && id == ids[|items|] && id !in mid
    ensures RowsAdded(table, mid[id := last.(id := id)], items + [last], ids)
  {
    var table', n := mid[id := last.(id := id)], |items|;
    assert ids[..n + 1] == ids[..n] + [id];
    forall i | 0 <= i < n ensures ids[i] != id {
      assert ids[i] in mid;
    }
  }

  lemma OneMoreConflict(d: Db, mid: Db, d': Db, items: seq<Conflict>, ids: seq<Id>, last: Conflict, id: Id, e: AuditEntry)
    requires ConflictsAdded(d, mid, items, ids) && |items| < |ids| && id == ids[|items|] && id !in mid.conflicts
    requires d' == mid.(conflicts := mid.conflicts[id := last.(id := id)], audits := mid.audits + [e])
    requires e.resource == ConflictResource && e.action == ConflictDetected
    ensures ConflictsAdded(d, d', items + [last], ids)
  {
    OneMoreRow(d.conflicts, mid.conflicts, items, ids, last, id);
    hide RowsAdded;
  }

  lemma NothingAdded(d: Db, ids: seq<Id>)
    ensures ConflictsAdded(d, d, [], ids)
  {
    assert ids[..0] == [];
  }

  lemma {:induction false} InsertingAdds(d: Db, items: seq<Conflict>, ids: seq<Id>, actor: Actor, parcelId: Id)
    requires InsertConflicts(d, items, ids, actor, parcelId).Some?
    ensures ConflictsAdded(d, InsertConflicts(d, items, ids, actor, parcelId).value, items, ids)
  {
    hide ConflictsAdded;
    if items == [] {
      NothingAdded(d, ids);
    } else {
      var n := |items| - 1;
      InsertingAdds(d, items[..n], ids, actor, parcelId);
      var mid, d' := InsertConflicts(d, items[..n], ids, actor, parcelId).value, InsertConflicts(d, items, ids, actor, parcelId).value;
      OneMoreConflict(d, mid, d', items[..n], ids, items[n], ids[n], ConflictEntry(actor, parcelId, items[n].(id := ids[n])));
      assert items == items[..n] + [items[n]];
    }
  }

  lemma NewConflictTracked(c: Conflict, id: Id, e: AuditEntry)
    requires c.id == id && c.state == Detected && c.resolvedBy == None
    requires e.action == ConflictDetected && e.after == ConflictImage(c)
    ensures ConflictTracked(Some(c), id, [e]) && Applications([e]) == []
  {
    assert Applications([e][..0]) == [];
  }

  lemma InsertedConflictTracked(d: Db, d': Db, row: Conflict, e: AuditEntry)
    requires ConflictsOk(d) && row.id !in d.conflicts && row.state == Detected && row.resolvedBy == None
    requires e.resource == ConflictResource && e.resourceId == row.id && e.action == ConflictDetected && e.after == ConflictImage(row)
    requires d'.conflicts == d.conflicts[row.id := row] && d'.audits == d.audits + [e]
    ensures ConflictsOk(d')
    ensures forall k: Id :: AppliedDrafts(d', k) == AppliedDrafts(d, k)
  {
    hide Trail, ReplayedConflict, Applications;
    forall k: Id
      ensures ConflictTracked(Lookup(d'.conflicts, k), k, Trail(d'.audits, ConflictResource, k))
      ensures AppliedDrafts(d', k) == AppliedDrafts(d, k)
    {
      var t := Trail(d.audits, ConflictResource, k);
      assert ConflictTracked(Lookup(d.conflicts, k), k, t);
      TrailSnoc(d.audits, e, ConflictResource, k);
      if k == row.id {
        assert t == [] && t + [e] == [e];
        NewConflictTracked(row, k, e);
        NoApplications();
      } else {
        assert t + [] == t;
      }
    }
  }

  lemma NoApplications()
    ensures Applications([]) == []
  {
  }

  lemma {:induction false} InsertedConflictsTracked(d: Db, items: seq<Conflict>, ids: seq<Id>, actor: Actor, parcelId: Id)
    requires ConflictsOk(d) && InsertConflicts(d, items, ids, actor, parcelId).Some?
    requires forall i :: 0 <= i < |items| ==> items[i].state == Detected && items[i].resolvedBy == None
    ensures var d' := InsertConflicts(d, items, ids, actor, parcelId).value;
            ConflictsOk(d') && forall k: Id :: AppliedDrafts(d', k) == AppliedDrafts(d, k)
  {
    hide ConflictsOk, AppliedDrafts;
    if items != [] {
      var n := |items| - 1;
      InsertedConflictsTracked(d, items[..n], ids, actor, parcelId);
      var mid := InsertConflicts(d, items[..n], ids, actor, parcelId).value;
      var row := items[n].(id := ids[n]);
      InsertedConflictTracked(mid, InsertConflicts(d, items, ids, actor, parcelId).value, row, ConflictEntry(actor, parcelId, row));
    }
  }

  lemma NewConflictsHaveNoDrafts(d: Db, d': Db)
    requires ConflictsOk(d) && OneToOne(Origins(d), Applied(d)) && d.conflicts.Keys <= d'.conflicts.Keys
    requires forall k: Id :: AppliedDrafts(d', k) == AppliedDrafts(d, k)
    ensures OneToOne(Origins(d), Applied(d'))
  {
    forall k | k in d'.conflicts && k !in d.conflicts ensures AppliedDrafts(d, k) == [] {
      assert ConflictTracked(Lookup(d.conflicts, k), k, Trail(d.audits, ConflictResource, k));
    }
    EmptyListsKeep(Origins(d), Applied(d), Applied(d'));
  }

  lemma EmptyListsKeep(o: map<Id, Option<Action>>, a: map<Id, seq<Id>>, a': map<Id, seq<Id>>)
    requires OneToOne(o, a) && a.Keys <= a'.Keys
    requires forall k :: k in a' ==> a'[k] == if k in a then a[k] else []
    ensures OneToOne(o, a')
  {
    forall p | p in o && o[p] == Some(ProposalDerived) ensures HasSource(a', p) {
      assert HasSource(a, p);
      var c :| c in a && p in a[c];
      assert c in a' && p in a'[c];
    }
  }

  lemma ListedRunIsOk(d: Db, mid: Db, d': Db, items: seq<Conflict>, ids: seq<Id>, row: DetectionRun, k: Id)
    requires RunsOk(d) && ConflictsAdded(d, mid, items, ids)
    requires forall i :: 0 <= i < |items| ==> items[i].proposalId == row.proposalId && items[i].inputHash == row.inputHash
    requires row.proposalId in d.proposals && row.resultIds == ids[..|items|]
    requires d'.proposals == mid.proposals && d'.conflicts == mid.conflicts && d'.runs == d.runs[row.id := row] && k in d'.runs
    ensures RunOk(d', k)
  {
    if k != row.id {
      assert RunOk(d, k);
    }
  }

  lemma OldResultsExist(d: Db, k: Id, c: Id)
    requires RunsOk(d) && k in d.runs && c in d.runs[k].resultIds
    ensures c in d.conflicts
  {
    assert RunOk(d, k);
  }

  lemma NewResultsAreNew(d: Db, mid: Db, items: seq<Conflict>, ids: seq<Id>, c: Id)
    requires ConflictsAdded(d, mid, items, ids) && c in mid.conflicts
    ensures c in d.conflicts <==> c !in ids[..|items|]
  {
    if c in ids[..|items|] {
      var i :| 0 <= i < |items| && ids[i] == c;
    }
  }

  // No two runs share an actor and key.
  ghost predicate KeysOnce(runs: map<Id, DetectionRun>) {
    forall j, k :: j in runs && k in runs && SameKey(runs[j], runs[k]) ==> j == k
  }

  ghost predicate ResultsOnce(runs: map<Id, DetectionRun>) {
    forall j, k, c :: j in runs && k in runs && c in runs[j].resultIds && c in runs[k].resultIds ==> j == k
  }

  ghost predicate Listed(runs: map<Id, DetectionRun>, c: Id) {
    exists k :: k in runs && c in runs[k].resultIds
  }

  lemma RunsOkParts(d: Db)
    ensures RunsOk(d) <==>
      && (forall k :: k in d.runs ==> RunOk(d, k)) && KeysOnce(d.runs) && ResultsOnce(d.runs)
      && (forall c :: c in d.conflicts ==> Listed(d.runs, c))
  {
    hide RunOk;
  }

  lemma NewKeyIsOnce(runs: map<Id, DetectionRun>, row: DetectionRun)
    requires KeysOnce(runs) && row.id !in runs && forall k :: k in runs ==> !SameKey(runs[k], row)
    ensures KeysOnce(runs[row.id := row])
  {
  }

  lemma NewResultsAreOnce(runs: map<Id, DetectionRun>, row: DetectionRun)
    requires ResultsOnce(runs) && row.id !in runs && forall k, c :: k in runs && c in runs[k].resultIds ==> c !in row.resultIds
    ensures ResultsOnce(runs[row.id := row])
  {
  }

  lemma OldResultsAreNotNew(d: Db, mid: Db, items: seq<Conflict>, ids: seq<Id>, k: Id, c: Id)
    requires RunsOk(d) && ConflictsAdded(d, mid, items, ids) && k in d.runs && c in d.runs[k].resultIds
    ensures c !in ids[..|items|]
  {
    hide RunsOk, ConflictsAdded;
    OldResultsExist(d, k, c);
    KeptConflicts(d, mid, items, ids, c);
    NewResultsAreNew(d, mid, items, ids, c);
  }

  lemma EveryConflictListed(d: Db, mid: Db, items: seq<Conflict>, ids: seq<Id>, row: DetectionRun, c: Id)
    requires (c in d.conflicts ==> Listed(d.runs, c)) && ConflictsAdded(d, mid, items, ids) && c in mid.conflicts
    requires row.resultIds == ids[..|items|] && row.id !in d.runs
    ensures Listed(d.runs[row.id := row], c)
  {
    NewResultsAreNew(d, mid, items, ids, c);
    hide ConflictsAdded;
    var runs := d.runs[row.id := row];
    if c in d.conflicts {
      var k :| k in d.runs && c in d.runs[k].resultIds;
      assert k in runs && c in runs[k].resultIds;
    } else {
      assert row.id in runs && c in runs[row.id].resultIds;
    }
  }

  // The runs after one more run over freshly inserted conflicts.
  lemma NewRunKeepsRuns(d: Db, mid: Db, d': Db, items: seq<Conflict>, ids: seq<Id>, row: DetectionRun)
    requires RunsOk(d) && ConflictsAdded(d, mid, items, ids) && mid.runs == d.runs
    requires forall i :: 0 <= i < |items| ==> items[i].proposalId == row.proposalId && items[i].inputHash == row.inputHash
    requires row.proposalId in d.proposals && row.resultIds == ids[..|items|]
    requires row.id !in d.runs && !RunKeyTaken(mid, row.actorId, row.key)
    requires d'.proposals == mid.proposals && d'.conflicts == mid.conflicts && d'.runs == d.runs[row.id := row]
    ensures RunsOk(d')
  {
    assert forall k :: k in d.runs ==> !SameKey(d.runs[k], row);
    hide ConflictsAdded, RunsOk, RunOk, KeysOnce, ResultsOnce, Listed, RunKeyTaken;
    RunsOkParts(d);
    RunsOkParts(d');
    forall k | k in d'.runs ensures RunOk(d', k) {
      ListedRunIsOk(d, mid, d', items, ids, row, k);
    }
    NewKeyIsOnce(d.runs, row);
    forall k, c | k in d.runs && c in d.runs[k].resultIds ensures c !in row.resultIds {
      OldResultsAreNotNew(d, mid, items, ids, k, c);
    }
    NewResultsAreOnce(d.runs, row);
    forall c | c in d'.conflicts ensures Listed(d'.runs, c) {
      EveryConflictListed(d, mid, items, ids, row, c);
    }
  }

  lemma KeptConflicts(d: Db, mid: Db, items: seq<Conflict>, ids: seq<Id>, c: Id)
    requires ConflictsAdded(d, mid, items, ids) && c in d.conflicts
    ensures c in mid.conflicts
  {
  }

  lemma RunEntryUnheard(mid: Db, d': Db, e: AuditEntry)
    requires ConflictsOk(mid) && d'.conflicts == mid.conflicts && d'.audits == mid.audits + [e] && e.resource == RunResource
    ensures ConflictsOk(d') && forall k: Id :: AppliedDrafts(d', k) == AppliedDrafts(mid, k)
  {
    assert d'.audits[|mid.audits|..] == [e];
    Unheard(mid, d', ConflictResource);
  }

  lemma RecordRunEffect(d: Db, items: seq<Conflict>, run: DetectionRun, parcelId: Id, actor: Actor, ids: Ids, done: Committed)
    requires Execute(d, RecordRun(items, run, parcelId), actor, ids) == Ok(done)
    ensures InsertConflicts(d, items, ids.items, actor, parcelId).Some?
    ensures |items| <= |ids.items| && ids.row !in d.runs && Later(d, done.db)
    ensures var mid := InsertConflicts(d, items, ids.items, actor, parcelId).value;
            && ConflictsAdded(d, mid, items, ids.items) && !RunKeyTaken(mid, run.actorId, run.key)
            && done.db == mid.(runs := d.runs[ids.row := run.(id := ids.row, resultIds := ids.items[..|items|])], audits := done.db.audits)
            && |done.db.audits| == |mid.audits| + 1 && done.db.audits == mid.audits + [done.db.audits[|mid.audits|]]
            && done.db.audits[|mid.audits|].resource == RunResource
            && (forall r: Resource :: r != ConflictResource && r != RunResource ==> Silent(done.db.audits[|d.audits|..], r))
            && mid.parcels == d.parcels && mid.observations == d.observations && mid.proposals == d.proposals && mid.runs == d.runs
            && d.audits <= done.db.audits
            && d.conflicts.Keys <= mid.conflicts.Keys
  {
    hide InsertConflicts, RunKeyTaken;
    InsertingAdds(d, items, ids.items, actor, parcelId);
  }

  lemma RecordRunKeeps(lib: Library, d: Db, items: seq<Conflict>, run: DetectionRun, parcelId: Id, actor: Actor, ids: Ids, done: Committed)
    requires StoreOk(lib, d) && TxOk(lib, d, RecordRun(items, run, parcelId), actor)
    requires Execute(d, RecordRun(items, run, parcelId), actor, ids) == Ok(done)
    ensures StoreOk(lib, done.db) && Later(d, done.db)
  {
    hide Execute, Later, Silent, InsertConflicts, RunKeyTaken, ConflictsAdded, ParcelsOk, ObservationsOk, ProposalsOk, ConflictsOk,
      LinksOk, GroundedOk, RunsOk, OneToOne, Origins, Applied, AppliedDrafts;
    RecordRunEffect(d, items, run, parcelId, actor, ids, done);
    var d', mid := done.db, InsertConflicts(d, items, ids.items, actor, parcelId).value;
    var row := run.(id := ids.row, resultIds := ids.items[..|items|]);
    InsertedConflictsTracked(d, items, ids.items, actor, parcelId);
    NewRunKeepsRuns(d, mid, d', items, ids.items, row);
    RunEntryUnheard(mid, d', d'.audits[|mid.audits|]);
    NewConflictsHaveNoDrafts(d, d');
    UntouchedParcels(d, d');
    UntouchedObservations(d, d');
    UntouchedProposals(d, d');
    LinksKeep(d, d');
    GroundedKeep(lib, d, d');
  }

  // ---- Any transaction ----

  lemma TransactionKeeps(lib: Library, d: Db, tx: Tx, actor: Actor, ids: Ids)
    requires StoreOk(lib, d) && TxOk(lib, d, tx, actor) && Execute(d, tx, actor, ids).Ok?
    ensures StoreOk(lib, Execute(d, tx, actor, ids).value.db) && Later(d, Execute(d, tx, actor, ids).value.db)
  {
    hide StoreOk, TxOk, Execute, Later;
    var done := Execute(d, tx, actor, ids).value;
    match tx
    case InsertParcel(p) => InsertParcelKeeps(lib, d, p, actor, ids, done);
    case UpdateParcel(before, after, expected) => UpdateParcelKeeps(lib, d, before, after, expected, actor, ids, done);
    case InsertObservation(o) => InsertObservationKeeps(lib, d, o, actor, ids, done);
    case MoveObservation(item, to, replacement, note) => MoveObservationKeeps(lib, d, item, to, replacement, note, actor, ids, done);
    case InsertProposal(p) => InsertProposalKeeps(lib, d, p, actor, ids, done);
    case MoveProposal(item, to, rationale) => MoveProposalKeeps(lib, d, item, to, rationale, actor, ids, done);
    case MoveConflict(item, to) => MoveConflictKeeps(lib, d, item, to, actor, ids, done);
    case ApplySuggestion(item, derived) => ApplySuggestionKeeps(lib, d, item, derived, actor, ids, done);
    case RecordRun(items, run, parcelId) => RecordRunKeeps(lib, d, items, run, parcelId, actor, ids, done);
  }
}
