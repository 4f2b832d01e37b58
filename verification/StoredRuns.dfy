/**
 What the stored detection runs say: each is the analysis of rows the store
 held, and its conflicts tell the findings of those rows, in order.
 */
module StoredRuns {
  import opened Basics
  import Text
  import opened ParcelIds
  import opened Topology
  import opened Records
  import opened Analysis
  import opened Transactions
  import opened Protocol
  import opened Growth
  import opened Invariants
  import opened DetectionWrites
  import opened Interleaving
  import opened Refinement
  import opened Idempotency
  import opened ExactlyOnce
  import opened DetectionInputs

  // A stored conflict, whatever its state by now, says what the finding says.
  ghost predicate TellsFinding(c: Conflict, f: Finding, parcel: Parcel, suggestion: string) {
    && c.kind == f.kind && c.geometry == f.geometry && c.magnitude == f.magnitude && c.suggestion == suggestion
    && Increasing(c.parcelIds) && forall x :: x in c.parcelIds <==> x == parcel.id || x in f.parcelIds
  }

  ghost predicate Told(d: Db, results: seq<Id>, outcome: Analysis.Outcome, parcel: Parcel) {
    && |results| == |outcome.findings|
    && forall i :: 0 <= i < |results| ==>
         results[i] in d.conflicts && TellsFinding(d.conflicts[results[i]], outcome.findings[i], parcel, outcome.suggestion)
  }

  // The rows, the tolerance and the outcome behind a run.
  datatype Basis = Basis(rows: Reads, tolerance: Micrometres, outcome: Analysis.Outcome)

  ghost predicate BasedOn(lib: Library, d: Db, run: DetectionRun, b: Basis) {
    && run.proposalId in d.proposals
    && var proposal := d.proposals[run.proposalId];
       && run.requestHash == RequestHash(lib, run.proposalId, b.tolerance)
       && run.inputHash == InputHash(lib, b.rows.parcel, proposal, b.rows.neighbours, b.tolerance)
       && Found(lib, b.rows.parcel.boundary, proposal.boundary, b.rows.neighbours, b.tolerance, b.outcome)
       && Told(d, run.resultIds, b.outcome, b.rows.parcel)
  }

  ghost predicate Explains(lib: Library, events: seq<Event>, run: DetectionRun, b: Basis) {
    var d := After(lib, events).db;
    && BasedOn(lib, d, run, b)
    && ReadAt(lib, events, d.proposals[run.proposalId].parcelId, b.rows)
  }

  ghost predicate Explained(lib: Library, events: seq<Event>, run: DetectionRun) {
    exists b :: Explains(lib, events, run, b)
  }

  // ---- Explanations stay ----

  lemma TellingStays(a: Conflict, b: Conflict, f: Finding, parcel: Parcel, suggestion: string)
    requires ConflictLater(a, b) && TellsFinding(a, f, parcel, suggestion)
    ensures TellsFinding(b, f, parcel, suggestion)
  {
  }

  lemma ToldStays(d: Db, d': Db, results: seq<Id>, outcome: Analysis.Outcome, parcel: Parcel)
    requires Later(d, d') && Told(d, results, outcome, parcel)
    ensures Told(d', results, outcome, parcel)
  {
    hide TellsFinding;
    forall i | 0 <= i < |results| ensures results[i] in d'.conflicts
      && TellsFinding(d'.conflicts[results[i]], outcome.findings[i], parcel, outcome.suggestion)
    {
      TellingStays(d.conflicts[results[i]], d'.conflicts[results[i]], outcome.findings[i], parcel, outcome.suggestion);
    }
  }

  lemma BasisStays(lib: Library, d: Db, d': Db, run: DetectionRun, b: Basis)
    requires Later(d, d') && BasedOn(lib, d, run, b)
    ensures run.proposalId in d.proposals && BasedOn(lib, d', run, b) && d'.proposals[run.proposalId].parcelId == d.proposals[run.proposalId].parcelId
  {
    hide Found, RequestHash, Told;
    assert ProposalLater(d.proposals[run.proposalId], d'.proposals[run.proposalId]);
    ToldStays(d, d', run.resultIds, b.outcome, b.rows.parcel);
  }

  lemma ExplanationStays(lib: Library, events: seq<Event>, run: DetectionRun)
    requires events != [] && Explained(lib, events[..|events| - 1], run)
    requires Later(After(lib, events[..|events| - 1]).db, After(lib, events).db)
    ensures Explained(lib, events, run)
  {
    hide After, BasedOn, ReadAt, Later;
    var front := events[..|events| - 1];
    var b :| Explains(lib, front, run, b);
    BasisStays(lib, After(lib, front).db, After(lib, events).db, run, b);
    ReadStays(lib, events, After(lib, front).db.proposals[run.proposalId].parcelId, b.rows);
    assert Explains(lib, events, run, b);
  }

  // ---- A new run ----

  lemma NewConflictTells(parcel: Parcel, proposal: Proposal, inputHash: string, outcome: Analysis.Outcome, i: nat, id: Id)
    requires i < |outcome.findings|
    ensures TellsFinding(NewConflicts(parcel, proposal, inputHash, outcome)[i].(id := id), outcome.findings[i], parcel, outcome.suggestion)
  {
    ParticipantsAreListedOnce(parcel, proposal, inputHash, outcome.suggestion, outcome.findings[i]);
  }

  lemma NewConflictsTell(d: Db, mid: Db, parcel: Parcel, proposal: Proposal, inputHash: string, outcome: Analysis.Outcome, ids: seq<Id>)
    requires ConflictsAdded(d, mid, NewConflicts(parcel, proposal, inputHash, outcome), ids)
    ensures Told(mid, ids[..|outcome.findings|], outcome, parcel)
  {
    hide TellsFinding, NewConflict;
    var items := NewConflicts(parcel, proposal, inputHash, outcome);
    forall i | 0 <= i < |items| ensures ids[i] in mid.conflicts && TellsFinding(mid.conflicts[ids[i]], outcome.findings[i], parcel, outcome.suggestion) {
      NewConflictTells(parcel, proposal, inputHash, outcome, i, ids[i]);
    }
  }

  // The run a commit stores, and the tables it stores it in.
  lemma RecordedBasis(lib: Library, d: Db, c: Client, ids: Ids, r: Reads, run: DetectionRun)
    requires c.request.DetectRequest? && c.stage.Commit? && DetectionOk(lib, d, c.request, c.actor, c.stage)
    requires RecordedFrom(lib, d.proposals[c.request.proposalId], c.request, c.actor, r) == c.stage
    requires Execute(d, c.stage.tx, c.actor, ids).Ok?
    requires Holds(Execute(d, c.stage.tx, c.actor, ids).value.db, run) && !Holds(d, run)
    ensures run.proposalId == c.request.proposalId
    ensures exists b: Basis :: b.rows == r && b.tolerance == EffectiveTolerance(c.request.tolerance, d.proposals[c.request.proposalId])
              && BasedOn(lib, Execute(d, c.stage.tx, c.actor, ids).value.db, run, b)
  {
    hide KeyAccepted, RequestHash, InputHash, Compute, Found, NewConflicts, InsertConflicts, ConflictsAdded, Told, Later, RecordedFrom;
    var tx, done := c.stage.tx, Execute(d, c.stage.tx, c.actor, ids).value;
    var proposal := d.proposals[c.request.proposalId];
    var tolerance := EffectiveTolerance(c.request.tolerance, proposal);
    RecordedAnalysis(lib, proposal, c.request, c.actor, r);
    var outcome := Compute(lib, r.parcel.boundary, proposal.boundary, r.neighbours, tolerance).value;
    RecordRunEffect(d, tx.items, tx.run, tx.parcelId, c.actor, ids, done);
    hide Execute;
    var mid := InsertConflicts(d, tx.items, ids.items, c.actor, tx.parcelId).value;
    NewConflictsTell(d, mid, r.parcel, proposal, tx.run.inputHash, outcome, ids.items);
    CountOf(r.parcel, proposal, tx.run.inputHash, outcome);
    SameConflictsTell(mid, done.db, ids.items[..|outcome.findings|], outcome, r.parcel);
    assert mid.proposals == d.proposals;
    assert run == done.db.runs[ids.row];
    assert BasedOn(lib, done.db, run, Basis(r, tolerance, outcome));
  }

  lemma CountOf(parcel: Parcel, proposal: Proposal, inputHash: string, outcome: Analysis.Outcome)
    ensures |NewConflicts(parcel, proposal, inputHash, outcome)| == |outcome.findings|
  {
  }

  lemma SameConflictsTell(d: Db, d': Db, results: seq<Id>, outcome: Analysis.Outcome, parcel: Parcel)
    requires d'.conflicts == d.conflicts && Told(d, results, outcome, parcel)
    ensures Told(d', results, outcome, parcel)
  {
  }

  lemma NewRunExplained(lib: Library, events: seq<Event>, run: DetectionRun)
    requires events != [] && Holds(After(lib, events).db, run) && !Holds(After(lib, events[..|events| - 1]).db, run)
    ensures Explained(lib, events, run)
  {
    hide StoreOk, DetectionOk, ReadsOf, Execute, Reading, Holds, BasedOn;
    var front, event := events[..|events| - 1], events[|events| - 1];
    var s := After(lib, front);
    assert After(lib, events) == Apply(lib, s, event);
    AlwaysOk(lib, front);
    DetectionsAlwaysOk(lib, front);
    EventIsOk(lib, s, event);
    var d' := After(lib, events).db;
    OnlyCommitsWrite(lib, s, event);
    var c, ids := s.clients[event.who], event.ids;
    assert d' == Execute(s.db, c.stage.tx, c.actor, ids).value.db;
    RunsComeFromDetections(lib, front, event.who, ids, run);
    hide After, Apply, Later;
    PendingRunsWereRead(lib, front, event.who);
    var r :| ReadsOf(lib, front, c, r);
    NewRunHasBasis(lib, events, c, r, run, ids, d');
  }

  lemma NewRunHasBasis(lib: Library, events: seq<Event>, c: Client, r: Reads, run: DetectionRun, ids: Ids, d': Db)
    requires events != []
    requires var d := After(lib, events[..|events| - 1]).db;
      && c.request.DetectRequest? && c.stage.Commit? && DetectionOk(lib, d, c.request, c.actor, c.stage)
      && ReadsOf(lib, events[..|events| - 1], c, r) && Later(d, d') && d' == After(lib, events).db
      && Execute(d, c.stage.tx, c.actor, ids).Ok? && Execute(d, c.stage.tx, c.actor, ids).value.db == d'
      && Holds(d', run) && !Holds(d, run)
    ensures Explained(lib, events, run)
  {
    hide After, Execute, DetectionOk, BasedOn, ReadAt, RecordedFrom;
    var front := events[..|events| - 1];
    var d := After(lib, front).db;
    RecordedBasis(lib, d, c, ids, r, run);
    var b: Basis :| b.rows == r && BasedOn(lib, d', run, b);
    assert ProposalLater(d.proposals[run.proposalId], d'.proposals[run.proposalId]);
    ReadStays(lib, events, d.proposals[run.proposalId].parcelId, r);
    assert Explains(lib, events, run, b);
  }

  lemma RunsComeFromDetections(lib: Library, events: seq<Event>, who: nat, ids: Ids, run: DetectionRun)
    requires var s := After(lib, events);
      && Busy(s, who) && s.clients[who].stage.Commit? && Execute(s.db, s.clients[who].stage.tx, s.clients[who].actor, ids).Ok?
      && Holds(Execute(s.db, s.clients[who].stage.tx, s.clients[who].actor, ids).value.db, run) && !Holds(s.db, run)
    ensures After(lib, events).clients[who].request.DetectRequest?
  {
    hide After, FromRequest, Execute;
    AlwaysFromRequests(lib, events);
    var s := After(lib, events);
    var c := s.clients[who];
    assert FromRequest(lib, s.db, c);
    RunsWritten(s.db, c.stage.tx, c.actor, ids);
    CommitsOfDetections(lib, s.db, c);
  }

  // ---- Every run ----

  lemma {:induction false} RunsAlwaysExplained(lib: Library, events: seq<Event>, run: DetectionRun)
    requires Holds(After(lib, events).db, run)
    ensures Explained(lib, events, run)
  {
    hide Apply, Explained, Holds, Later, SystemOk;
    if events == [] {
      NoRunsYet(lib, run);
    } else {
      var front := events[..|events| - 1];
      if Holds(After(lib, front).db, run) {
        RunsAlwaysExplained(lib, front, run);
        AlwaysOk(lib, front);
        EventIsOk(lib, After(lib, front), events[|events| - 1]);
        ExplanationStays(lib, events, run);
      } else {
        NewRunExplained(lib, events, run);
      }
    }
  }

  lemma NoRunsYet(lib: Library, run: DetectionRun)
    ensures !Holds(After(lib, []).db, run)
  {
  }

  /** In every reachable state each stored run carries the input hash of a parcel
      and neighbours the store held, and the conflicts it lists tell the findings
      of those rows, one for each finding, in order. */
  lemma StoredRunsTellTheirFindings(lib: Library, events: seq<Event>, k: Id)
    requires k in After(lib, events).db.runs
    ensures var d := After(lib, events).db; var run := d.runs[k];
            && run.proposalId in d.proposals
            && exists b :: BasedOn(lib, d, run, b) && ReadAt(lib, events, d.proposals[run.proposalId].parcelId, b.rows)
  {
    hide After, StoreOk, BasedOn, ReadAt;
    AlwaysOk(lib, events);
    var d := After(lib, events).db;
    OpenStore(lib, d);
    assert RunOk(d, k);
    RunsAlwaysExplained(lib, events, d.runs[k]);
    var b :| Explains(lib, events, d.runs[k], b);
    assert BasedOn(lib, d, d.runs[k], b);
  }

  // Two conflicts that tell the same finding of the same suggestion.
  ghost predicate SameFinding(a: Conflict, b: Conflict) {
    a.kind == b.kind && a.geometry == b.geometry && a.magnitude == b.magnitude && a.suggestion == b.suggestion
  }

  lemma SameListsTellTheSame(a: seq<nat>, b: seq<nat>)
    requires Increasing(a) && Increasing(b) && forall x :: x in a <==> x in b
    ensures a == b
  {
    IncreasingIsUnique(a, b);
  }

  /** With a collision-free digest, two stored runs with equal input hashes list
      as many conflicts, with the same findings in the same order, and the same
      participants when they concern the same parcel. */
  lemma EqualInputsEqualFindings(lib: Library, events: seq<Event>, j: Id, k: Id, i: nat)
    requires Textual(lib) && j in After(lib, events).db.runs && k in After(lib, events).db.runs
    requires After(lib, events).db.runs[j].inputHash == After(lib, events).db.runs[k].inputHash
    ensures var d := After(lib, events).db; |d.runs[j].resultIds| == |d.runs[k].resultIds|
    ensures var d := After(lib, events).db; var a, b := d.runs[j], d.runs[k];
            i < |a.resultIds| ==>
              && a.resultIds[i] in d.conflicts && b.resultIds[i] in d.conflicts
              && SameFinding(d.conflicts[a.resultIds[i]], d.conflicts[b.resultIds[i]])
              && a.proposalId in d.proposals && b.proposalId in d.proposals
              && (d.proposals[a.proposalId].parcelId == d.proposals[b.proposalId].parcelId ==>
                    d.conflicts[a.resultIds[i]].parcelIds == d.conflicts[b.resultIds[i]].parcelIds)
  {
    hide After, StoreOk, Textual, Found, InputHash, RequestHash, ActiveNeighbours, Increasing;
    var d := After(lib, events).db;
    StoredRunsTellTheirFindings(lib, events, j);
    StoredRunsTellTheirFindings(lib, events, k);
    var p, q := d.proposals[d.runs[j].proposalId], d.proposals[d.runs[k].proposalId];
    var x :| BasedOn(lib, d, d.runs[j], x) && ReadAt(lib, events, p.parcelId, x.rows);
    var y :| BasedOn(lib, d, d.runs[k], y) && ReadAt(lib, events, q.parcelId, y.rows);
    SameBasis(lib, events, p, q, x, y);
    if i < |d.runs[j].resultIds| && p.parcelId == q.parcelId {
      SameListsTellTheSame(d.conflicts[d.runs[j].resultIds[i]].parcelIds, d.conflicts[d.runs[k].resultIds[i]].parcelIds);
    }
  }

  lemma SameBasis(lib: Library, events: seq<Event>, p: Proposal, q: Proposal, x: Basis, y: Basis)
    requires Textual(lib) && ReadAt(lib, events, p.parcelId, x.rows) && ReadAt(lib, events, q.parcelId, y.rows)
    requires Found(lib, x.rows.parcel.boundary, p.boundary, x.rows.neighbours, x.tolerance, x.outcome)
    requires Found(lib, y.rows.parcel.boundary, q.boundary, y.rows.neighbours, y.tolerance, y.outcome)
    requires InputHash(lib, x.rows.parcel, p, x.rows.neighbours, x.tolerance) == InputHash(lib, y.rows.parcel, q, y.rows.neighbours, y.tolerance)
    ensures x.outcome == y.outcome
    ensures p.parcelId == q.parcelId ==> x.rows.parcel.id == y.rows.parcel.id
  {
    CrsAlwaysClean(lib, events[..x.rows.parcelAt]);
    CrsAlwaysClean(lib, events[..y.rows.parcelAt]);
    ReadKeepsId(lib, events, p.parcelId, x.rows);
    ReadKeepsId(lib, events, q.parcelId, y.rows);
    hide After, Textual, Found, InputHash, ActiveNeighbours;
    InputHashDeterminesFindings(lib, x.rows.parcel, p, x.rows.neighbours, x.tolerance, x.outcome,
                                y.rows.parcel, q, y.rows.neighbours, y.tolerance, y.outcome);
  }

  lemma ReadKeepsId(lib: Library, events: seq<Event>, id: Id, r: Reads)
    requires ReadAt(lib, events, id, r)
    ensures r.parcel.id == id
  {
    AlwaysOk(lib, events[..r.parcelAt]);
    hide After, StoreOk, ActiveNeighbours;
    OpenStore(lib, After(lib, events[..r.parcelAt]).db);
    CurrentParcelIsKnown(After(lib, events[..r.parcelAt]).db, id);
  }

  // ---- What a detection answers ----

  // Every conflict of the reply is the row the store holds.
  ghost predicate ShowsRows(d: Db, items: seq<Conflict>) {
    forall i :: 0 <= i < |items| ==> items[i].id in d.conflicts && d.conflicts[items[i].id] == items[i]
  }

  lemma {:induction false} ListedShowRows(d: Db, ids: seq<Id>)
    requires ConflictsByIds(d.conflicts, ids).Some? && forall k :: k in d.conflicts ==> d.conflicts[k].id == k
    ensures ShowsRows(d, ConflictsByIds(d.conflicts, ids).value)
  {
    if ids != [] {
      ListedShowRows(d, ids[..|ids| - 1]);
    }
  }

  lemma RecordedShowRows(d: Db, tx: Tx, actor: Actor, ids: Ids)
    requires tx.RecordRun? && Execute(d, tx, actor, ids).Ok?
    ensures var done := Execute(d, tx, actor, ids).value; done.reply.ConflictsReply? && ShowsRows(done.db, done.reply.conflicts)
  {
    hide InsertConflicts, Later;
    RecordRunEffect(d, tx.items, tx.run, tx.parcelId, actor, ids, Execute(d, tx, actor, ids).value);
  }

  lemma OtherStagesShowNothing(lib: Library, d: Db, c: Client)
    requires c.request.DetectRequest? && !c.stage.Commit? && !c.stage.Finished? && DetectionOk(lib, d, c.request, c.actor, c.stage)
    ensures Reading(lib, d, c).Finished? && Reading(lib, d, c).reply.ConflictsReply? ==>
              c.stage.ReplayRun? && ConflictsByIds(d.conflicts, c.stage.run.resultIds) == Some(Reading(lib, d, c).reply.conflicts)
  {
    hide RequestHash, RunOf, ConflictsByIds, KeyAccepted, ActiveNeighbours, Compute, InputHash, NewConflicts;
  }

  /** When a detection is answered with conflicts, recorded or replayed, each is
      the row the store holds at that moment. */
  lemma DetectionsShowStoredConflicts(lib: Library, events: seq<Event>, who: nat, ids: Ids)
    requires DetectionBy(After(lib, events), who) && !After(lib, events).clients[who].stage.Finished?
    requires var s' := Apply(lib, After(lib, events), Act(who, ids)); s'.clients[who].stage.Finished? && s'.clients[who].stage.reply.ConflictsReply?
    ensures var s' := Apply(lib, After(lib, events), Act(who, ids)); ShowsRows(s'.db, s'.clients[who].stage.reply.conflicts)
  {
    hide After, StoreOk, Execute, Reading, DetectionOk, ShowsRows, ConflictsByIds;
    AlwaysOk(lib, events);
    DetectionsAlwaysOk(lib, events);
    var s := After(lib, events);
    var c := s.clients[who];
    if c.stage.Commit? {
      PendingRun(lib, s.db, c);
      RecordedShowRows(s.db, c.stage.tx, c.actor, ids);
    } else {
      OtherStagesShowNothing(lib, s.db, c);
      forall k | k in s.db.conflicts ensures s.db.conflicts[k].id == k {
        ConflictNumbered(lib, s.db, k);
      }
      ListedShowRows(s.db, c.stage.run.resultIds);
    }
  }

  lemma ConflictNumbered(lib: Library, d: Db, k: Id)
    requires StoreOk(lib, d) && k in d.conflicts
    ensures d.conflicts[k].id == k
  {
    OpenStore(lib, d);
    hide StoreOk, ObservationsOk, ProposalsOk, ConflictsOk;
    RowIds(d, k);
  }
}
