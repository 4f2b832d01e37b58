/**
 What idempotent detection promises its callers, in every reachable state.
 */
module ExactlyOnce {
  import opened Basics
  import Text
  import opened Lifecycles
  import opened Records
  import opened Analysis
  import opened Transactions
  import opened Protocol
  import opened Growth
  import opened Invariants
  import opened Interleaving
  import opened Refinement
  import opened Idempotency

  // ---- Each run was made by a request that succeeded ----

  ghost predicate Made(lib: Library, s: System, who: nat, run: DetectionRun) {
    && who in s.clients && s.clients[who].request.DetectRequest?
    && var c := s.clients[who];
       && c.request.proposalId in s.db.proposals && RunFor(run, c.actor, c.request)
       && run.requestHash == WantedHash(lib, s.db, c.request)
       && c.stage.Finished? && c.stage.reply.ConflictsReply? && IdsOf(c.stage.reply.conflicts) == run.resultIds
  }

  ghost predicate RunsMade(lib: Library, s: System) {
    forall run :: Holds(s.db, run) ==> exists who :: Made(lib, s, who, run)
  }

  lemma RunsWritten(d: Db, tx: Tx, actor: Actor, ids: Ids)
    requires Execute(d, tx, actor, ids).Ok?
    ensures var done := Execute(d, tx, actor, ids).value;
            if tx.RecordRun? then
              && done.reply.ConflictsReply? && ids.row !in d.runs
              && done.db.runs == d.runs[ids.row := tx.run.(id := ids.row, resultIds := IdsOf(done.reply.conflicts))]
            else done.db.runs == d.runs
  {
    if tx.RecordRun? {
      hide InsertConflicts;
      InsertingLeavesRuns(d, tx.items, ids.items, actor, tx.parcelId);
      InsertingNeedsIds(d, tx.items, ids.items, actor, tx.parcelId);
      assert IdsOf(Numbered(tx.items, ids.items)) == ids.items[..|tx.items|];
    }
  }

  lemma {:induction false} InsertingLeavesRuns(d: Db, items: seq<Conflict>, ids: seq<Id>, actor: Actor, parcelId: Id)
    ensures InsertConflicts(d, items, ids, actor, parcelId).Some? ==> InsertConflicts(d, items, ids, actor, parcelId).value.runs == d.runs
  {
    if items != [] {
      InsertingLeavesRuns(d, items[..|items| - 1], ids, actor, parcelId);
    }
  }

  lemma MadeIsStable(lib: Library, s: System, event: Event, who: nat, run: DetectionRun)
    requires Made(lib, s, who, run) && Later(s.db, Apply(lib, s, event).db)
    ensures Made(lib, Apply(lib, s, event), who, run)
  {
    hide Step, RequestHash;
    var s', q := Apply(lib, s, event), s.clients[who].request;
    assert ProposalLater(s.db.proposals[q.proposalId], s'.db.proposals[q.proposalId]);
    assert s'.clients[who] == s.clients[who];
  }

  lemma CommitMakesItsRun(lib: Library, s: System, who: nat, ids: Ids, run: DetectionRun)
    requires SystemOk(lib, s) && DetectionsOk(lib, s) && AllFromRequests(lib, s) && Busy(s, who) && s.clients[who].stage.Commit?
    requires Holds(Apply(lib, s, Act(who, ids)).db, run) && !Holds(s.db, run)
    ensures Made(lib, Apply(lib, s, Act(who, ids)), who, run)
  {
    EventIsOk(lib, s, Act(who, ids));
    hide SystemOk, StoreOk, DetectionOk, RequestHash, Execute, FromRequest, Later, Made;
    var c, s' := s.clients[who], Apply(lib, s, Act(who, ids));
    assert FromRequest(lib, s.db, c);
    if Execute(s.db, c.stage.tx, c.actor, ids).Ok? {
      CommitsOfDetections(lib, s.db, c);
      RunsWritten(s.db, c.stage.tx, c.actor, ids);
      RecorderMadeIt(lib, s.db, s', who, c, ids, run);
    }
  }

  lemma RecorderMadeIt(lib: Library, d: Db, s': System, who: nat, c: Client, ids: Ids, run: DetectionRun)
    requires c.request.DetectRequest? && c.stage.Commit? && DetectionOk(lib, d, c.request, c.actor, c.stage) && Later(d, s'.db)
    requires Execute(d, c.stage.tx, c.actor, ids).Ok? && Execute(d, c.stage.tx, c.actor, ids).value.db == s'.db
    requires who in s'.clients && s'.clients[who] == c.(stage := Finished(Execute(d, c.stage.tx, c.actor, ids).value.reply))
    requires Holds(s'.db, run) && !Holds(d, run)
    ensures Made(lib, s', who, run)
  {
    hide Execute, RequestHash, KeyAccepted, ObservationLater, ConflictLater;
    RunsWritten(d, c.stage.tx, c.actor, ids);
    assert ProposalLater(d.proposals[c.request.proposalId], s'.db.proposals[c.request.proposalId]);
  }

  lemma CommitsOfDetections(lib: Library, d: Db, c: Client)
    requires c.stage.Commit? && FromRequest(lib, d, c)
    ensures c.stage.tx.RecordRun? <==> c.request.DetectRequest?
  {
  }

  lemma OnlyCommitsWrite(lib: Library, s: System, event: Event)
    requires Apply(lib, s, event).db != s.db
    ensures event.Act? && Busy(s, event.who) && s.clients[event.who].stage.Commit?
  {
    hide Execute, Reading;
  }

  lemma EventKeepsRunsMade(lib: Library, s: System, event: Event)
    requires SystemOk(lib, s) && DetectionsOk(lib, s) && AllFromRequests(lib, s) && RunsMade(lib, s)
    ensures RunsMade(lib, Apply(lib, s, event))
  {
    EventIsOk(lib, s, event);
    hide SystemOk, DetectionsOk, AllFromRequests, Made, Later, Apply;
    var s' := Apply(lib, s, event);
    forall run | Holds(s'.db, run) ensures exists who :: Made(lib, s', who, run) {
      if Holds(s.db, run) {
        var who :| Made(lib, s, who, run);
        MadeIsStable(lib, s, event, who, run);
      } else {
        OnlyCommitsWrite(lib, s, event);
        CommitMakesItsRun(lib, s, event.who, event.ids, run);
      }
    }
  }

  lemma {:induction false} RunsAlwaysMade(lib: Library, events: seq<Event>)
    ensures RunsMade(lib, After(lib, events))
  {
    hide SystemOk, DetectionsOk, AllFromRequests, Made, Apply;
    if events != [] {
      var front := events[..|events| - 1];
      RunsAlwaysMade(lib, front);
      AlwaysOk(lib, front);
      DetectionsAlwaysOk(lib, front);
      AlwaysFromRequests(lib, front);
      EventKeepsRunsMade(lib, After(lib, front), events[|events| - 1]);
    }
  }

  // ---- The promises ----

  ghost predicate DetectionBy(s: System, who: nat) {
    who in s.clients && s.clients[who].request.DetectRequest?
  }

  ghost predicate Succeeded(s: System, who: nat) {
    DetectionBy(s, who) && s.clients[who].stage.Finished? && s.clients[who].stage.reply.ConflictsReply?
  }

  ghost predicate SharedKey(s: System, a: nat, b: nat)
    requires DetectionBy(s, a) && DetectionBy(s, b)
  {
    && s.clients[a].actor.id == s.clients[b].actor.id
    && Text.TrimSpace(s.clients[a].request.key) == Text.TrimSpace(s.clients[b].request.key)
  }

  lemma SuccessIsReported(lib: Library, s: System, who: nat)
    requires DetectionsOk(lib, s) && Succeeded(s, who)
    ensures var c := s.clients[who];
            && c.request.proposalId in s.db.proposals
            && Reported(s.db, c.actor, c.request, WantedHash(lib, s.db, c.request), IdsOf(c.stage.reply.conflicts))
  {
    hide RequestHash;
    var c := s.clients[who];
    assert DetectionOk(lib, s.db, c.request, c.actor, c.stage);
  }

  /** All successes for one actor and key list the same conflicts in the same
      order, and were asked for with the same request hash. */
  lemma SuccessesAgree(lib: Library, events: seq<Event>, a: nat, b: nat)
    requires Succeeded(After(lib, events), a) && Succeeded(After(lib, events), b) && SharedKey(After(lib, events), a, b)
    ensures var s := After(lib, events); var ca, cb := s.clients[a], s.clients[b];
            && IdsOf(ca.stage.reply.conflicts) == IdsOf(cb.stage.reply.conflicts)
            && ca.request.proposalId in s.db.proposals && cb.request.proposalId in s.db.proposals
            && WantedHash(lib, s.db, ca.request) == WantedHash(lib, s.db, cb.request)
  {
    hide RequestHash, After;
    var s := After(lib, events);
    AlwaysOk(lib, events);
    DetectionsAlwaysOk(lib, events);
    SuccessIsReported(lib, s, a);
    SuccessIsReported(lib, s, b);
    assert RunsOk(s.db);
  }

  /** Every stored conflict belongs to exactly one run, made for its proposal on
      the input it records; a run is made once for each actor and key. */
  lemma ConflictsBelongToOneRun(lib: Library, events: seq<Event>, c: Id)
    requires c in After(lib, events).db.conflicts
    ensures var d := After(lib, events).db;
            exists k :: k in d.runs && c in d.runs[k].resultIds
              && d.conflicts[c].proposalId == d.runs[k].proposalId && d.conflicts[c].inputHash == d.runs[k].inputHash
              && (forall j :: j in d.runs && (c in d.runs[j].resultIds || SameKey(d.runs[j], d.runs[k])) ==> j == k)
  {
    hide After;
    AlwaysOk(lib, events);
    var d := After(lib, events).db;
    assert RunsOk(d);
    var k :| k in d.runs && c in d.runs[k].resultIds;
    assert RunOk(d, k);
  }

  /** A replay under way always finds every conflict of its run. */
  lemma ReplayNeverMisses(lib: Library, events: seq<Event>, who: nat)
    requires DetectionBy(After(lib, events), who) && After(lib, events).clients[who].stage.ReplayRun?
    ensures var s := After(lib, events); var c := s.clients[who]; var next := Reading(lib, s.db, c);
            next.Finished? && next.reply.ConflictsReply? && IdsOf(next.reply.conflicts) == c.stage.run.resultIds
  {
    hide After, StoreOk, ParcelsOk, ObservationsOk, ProposalsOk, ConflictsOk, LinksOk, GroundedOk, RunsOk, WantedHash, Replayed, Holds, RunFor;
    hide Started, AfterReadingNeighbours, AfterReadingEvidence, AfterReadingSource, DerivedProposal, ActiveNeighbours;
    AlwaysOk(lib, events);
    DetectionsAlwaysOk(lib, events);
    var s := After(lib, events);
    var c := s.clients[who];
    OpenStore(lib, s.db);
    assert DetectionOk(lib, s.db, c.request, c.actor, c.stage);
    ReplayFindsAll(s.db, c.stage.run);
  }

  /** A detection is refused as a reuse of its key only if another request, for
      another proposal or tolerance, succeeded with that key. */
  lemma RefusedOnlyForAnotherRequest(lib: Library, events: seq<Event>, who: nat)
    requires DetectionBy(After(lib, events), who)
    requires After(lib, events).clients[who].stage == Finished(Failure(StateConflict))
    ensures var s := After(lib, events); var q := s.clients[who].request;
            exists other :: Succeeded(s, other) && SharedKey(s, who, other)
              && q.proposalId in s.db.proposals && s.clients[other].request.proposalId in s.db.proposals
              && WantedHash(lib, s.db, s.clients[other].request) != WantedHash(lib, s.db, q)
              && (s.clients[other].request.proposalId != q.proposalId || s.clients[other].request.tolerance != q.tolerance)
  {
    hide After, RequestHash;
    DetectionsAlwaysOk(lib, events);
    RunsAlwaysMade(lib, events);
    var s := After(lib, events);
    var c := s.clients[who];
    assert DetectionOk(lib, s.db, c.request, c.actor, c.stage);
    var run :| Holds(s.db, run) && RunFor(run, c.actor, c.request) && run.requestHash != WantedHash(lib, s.db, c.request);
    var other :| Made(lib, s, other, run);
    assert Succeeded(s, other) && SharedKey(s, who, other);
  }

  /** So repeating a request that succeeded is never refused that way. */
  lemma RepeatsAreNotRefused(lib: Library, events: seq<Event>, who: nat, repeat: nat)
    requires Succeeded(After(lib, events), who) && DetectionBy(After(lib, events), repeat) && SharedKey(After(lib, events), who, repeat)
    requires After(lib, events).clients[repeat].request.proposalId == After(lib, events).clients[who].request.proposalId
    requires After(lib, events).clients[repeat].request.tolerance == After(lib, events).clients[who].request.tolerance
    ensures After(lib, events).clients[repeat].stage != Finished(Failure(StateConflict))
  {
    hide After, RequestHash;
    var s := After(lib, events);
    if s.clients[repeat].stage == Finished(Failure(StateConflict)) {
      RefusedOnlyForAnotherRequest(lib, events, repeat);
      var q := s.clients[repeat].request;
      var other :| Succeeded(s, other) && SharedKey(s, repeat, other)
              && s.clients[other].request.proposalId in s.db.proposals
              && WantedHash(lib, s.db, s.clients[other].request) != WantedHash(lib, s.db, q);
      SuccessesAgree(lib, events, who, other);
    }
  }

  // ---- Losing the race, and asking again ----

  // What the run stored for a key answers to a request.
  ghost predicate AnsweredBy(run: DetectionRun, wanted: string, reply: Reply) {
    if run.requestHash != wanted then reply == Failure(StateConflict)
    else reply.ConflictsReply? && IdsOf(reply.conflicts) == run.resultIds
  }

  // The reply comes from a run stored for the actor and key.
  ghost predicate Answered(d: Db, actor: Actor, q: Request, wanted: string, reply: Reply)
    requires q.DetectRequest?
  {
    exists run :: Holds(d, run) && RunFor(run, actor, q) && AnsweredBy(run, wanted, reply)
  }

  lemma FoundRunAnswers(lib: Library, d: Db, c: Client, hash: string, otherwise: Stage, ids: Ids)
    requires ConflictsOk(d) && RunsOk(d) && c.request.DetectRequest?
    requires RunKeyTaken(d, c.actor.id, Text.TrimSpace(c.request.key))
    requires c.stage == AfterFindingRun(RunOf(d, c.actor.id, Text.TrimSpace(c.request.key)), hash, otherwise)
    ensures RunAlone(lib, d, c, ids).0 == d && Answered(d, c.actor, c.request, hash, RunAlone(lib, d, c, ids).1.stage.reply)
  {
    hide RunOf, RunAlone, Replayed, ConflictsOk, RunsOk;
    RunOfFinds(d, c.actor.id, Text.TrimSpace(c.request.key));
    var run := RunOf(d, c.actor.id, Text.TrimSpace(c.request.key)).value;
    if run.requestHash == hash {
      RunReading(lib, d, c, ids);
      ReplayFindsAll(d, run);
    }
    DecidedIsTheRun(lib, d, c.(stage := if run.requestHash == hash then Replayed(d, run) else c.stage), ids);
  }

  lemma TakenKeyFails(d: Db, tx: Tx, actor: Actor, ids: Ids)
    requires tx.RecordRun? && RunKeyTaken(d, tx.run.actorId, tx.run.key)
    ensures Execute(d, tx, actor, ids).Err?
  {
    InsertingLeavesRuns(d, tx.items, ids.items, actor, tx.parcelId);
  }

  /** A detection beaten to its key leaves no conflict, run or audit entry, and
      reports the winner's run if that run was made for the same request. */
  lemma LosersReportTheWinner(lib: Library, events: seq<Event>, who: nat, ids: Ids)
    requires DetectionBy(After(lib, events), who) && After(lib, events).clients[who].stage.Commit?
    requires var s := After(lib, events); RunKeyTaken(s.db, s.clients[who].actor.id, Text.TrimSpace(s.clients[who].request.key))
    ensures var s := After(lib, events); var c := s.clients[who]; var end := RunAlone(lib, s.db, c, ids);
            && end.0 == s.db && c.request.proposalId in s.db.proposals
            && Answered(s.db, c.actor, c.request, WantedHash(lib, s.db, c.request), end.1.stage.reply)
  {
    hide After, StoreOk, DetectionOk, RunAlone, RunKeyTaken, WantedHash, Answered;
    AlwaysOk(lib, events);
    DetectionsAlwaysOk(lib, events);
    var s := After(lib, events);
    LoserReports(lib, s.db, s.clients[who], ids);
  }

  lemma PendingRun(lib: Library, d: Db, c: Client)
    requires c.request.DetectRequest? && c.stage.Commit? && DetectionOk(lib, d, c.request, c.actor, c.stage)
    ensures c.request.proposalId in d.proposals && c.stage.tx.RecordRun?
    ensures RunFor(c.stage.tx.run, c.actor, c.request) && c.stage.tx.run.requestHash == WantedHash(lib, d, c.request)
  {
    hide WantedHash, KeyAccepted;
  }

  lemma LoserReports(lib: Library, d: Db, c: Client, ids: Ids)
    requires StoreOk(lib, d) && c.request.DetectRequest? && c.stage.Commit? && DetectionOk(lib, d, c.request, c.actor, c.stage)
    requires RunKeyTaken(d, c.actor.id, Text.TrimSpace(c.request.key))
    ensures var end := RunAlone(lib, d, c, ids);
            && end.0 == d && c.request.proposalId in d.proposals
            && Answered(d, c.actor, c.request, WantedHash(lib, d, c.request), end.1.stage.reply)
  {
    OpenStore(lib, d);
    hide StoreOk, ConflictsOk, RunsOk, WantedHash, RunAlone, Execute, RunOf, RunKeyTaken, KeyAccepted, Answered, AfterFindingRun;
    var tx, key := c.stage.tx, Text.TrimSpace(c.request.key);
    PendingRun(lib, d, c);
    hide DetectionOk;
    TakenKeyFails(d, tx, c.actor, ids);
    LosingRun(lib, d, c, ids);
    SearchAgain(lib, d, c, ids, tx.run.requestHash, key);
    var found := AfterFindingRun(RunOf(d, c.actor.id, key), tx.run.requestHash, Fail(Internal));
    FoundRunAnswers(lib, d, c.(stage := found), tx.run.requestHash, Fail(Internal), ids);
  }

  lemma SearchAgain(lib: Library, d: Db, c: Client, ids: Ids, hash: string, key: string)
    ensures RunAlone(lib, d, c.(stage := FindRunAgain(hash, key)), ids)
         == RunAlone(lib, d, c.(stage := AfterFindingRun(RunOf(d, c.actor.id, key), hash, Fail(Internal))), ids)
  {
    hide RunAlone, RunOf, AfterFindingRun;
    RunReading(lib, d, c.(stage := FindRunAgain(hash, key)), ids);
  }

  lemma LosingRun(lib: Library, d: Db, c: Client, ids: Ids)
    requires c.stage.Commit? && c.stage.tx.RecordRun? && Execute(d, c.stage.tx, c.actor, ids).Err?
    ensures RunAlone(lib, d, c, ids) == RunAlone(lib, d, c.(stage := FindRunAgain(c.stage.tx.run.requestHash, c.stage.tx.run.key)), ids)
  {
    hide Execute;
  }

  /** Asking again with a used key changes nothing and reports the stored run,
      or is refused if that run was made for another request. */
  lemma AskingAgainReports(lib: Library, events: seq<Event>, q: Request, actor: Actor, ids: Ids)
    requires q.DetectRequest? && KeyAccepted(q.key) && q.proposalId in After(lib, events).db.proposals
    requires RunKeyTaken(After(lib, events).db, actor.id, Text.TrimSpace(q.key))
    ensures var d := After(lib, events).db; var end := Serve(lib, d, q, actor, ids);
            end.0 == d && Answered(d, actor, q, WantedHash(lib, d, q), end.1)
  {
    hide After, StoreOk, RunAlone, RunKeyTaken, WantedHash, Answered, KeyAccepted;
    AlwaysOk(lib, events);
    AskerReports(lib, After(lib, events).db, q, actor, ids);
  }

  lemma AskerReports(lib: Library, d: Db, q: Request, actor: Actor, ids: Ids)
    requires StoreOk(lib, d) && q.DetectRequest? && KeyAccepted(q.key) && q.proposalId in d.proposals
    requires RunKeyTaken(d, actor.id, Text.TrimSpace(q.key))
    ensures var end := Serve(lib, d, q, actor, ids);
            end.0 == d && Answered(d, actor, q, WantedHash(lib, d, q), end.1)
  {
    OpenStore(lib, d);
    hide StoreOk, ObservationsOk, ProposalsOk, ConflictsOk, RunsOk, RunAlone, RunOf, RunKeyTaken, KeyAccepted, Answered, AfterFindingRun;
    var proposal, key := d.proposals[q.proposalId], Text.TrimSpace(q.key);
    var tolerance := EffectiveTolerance(q.tolerance, proposal);
    RowIds(d, q.proposalId);
    SearchFirst(lib, d, q, actor, ids);
    var otherwise := ReadDetectionParcel(proposal, tolerance, key);
    var found := AfterFindingRun(RunOf(d, actor.id, key), WantedHash(lib, d, q), otherwise);
    FoundRunAnswers(lib, d, Client(q, actor, found), WantedHash(lib, d, q), otherwise, ids);
  }

  lemma SearchFirst(lib: Library, d: Db, q: Request, actor: Actor, ids: Ids)
    requires q.DetectRequest? && KeyAccepted(q.key) && q.proposalId in d.proposals && d.proposals[q.proposalId].id == q.proposalId
    ensures var proposal, key := d.proposals[q.proposalId], Text.TrimSpace(q.key);
            var otherwise := ReadDetectionParcel(proposal, EffectiveTolerance(q.tolerance, proposal), key);
            RunAlone(lib, d, Client(q, actor, Start), ids) ==
              RunAlone(lib, d, Client(q, actor, AfterFindingRun(RunOf(d, actor.id, key), WantedHash(lib, d, q), otherwise)), ids)
  {
    hide RunAlone, RunOf, AfterFindingRun, RequestHash, KeyAccepted;
    var proposal, key := d.proposals[q.proposalId], Text.TrimSpace(q.key);
    RunReading(lib, d, Client(q, actor, Start), ids);
    RunReading(lib, d, Client(q, actor, FindRun(proposal, EffectiveTolerance(q.tolerance, proposal), key)), ids);
  }

  // ---- A winning detection as one atomic request ----

  // What a detection would record if it read the store now.
  function RecordedNow(lib: Library, d: Db, q: Request, actor: Actor): Option<Stage>
    requires q.DetectRequest?
  {
    if q.proposalId !in d.proposals || d.proposals[q.proposalId].parcelId !in d.parcels then None
    else
      var proposal := d.proposals[q.proposalId];
      var parcel := d.parcels[proposal.parcelId];
      Some(AfterReadingNeighbours(lib, proposal, parcel, ActiveNeighbours(d, parcel.crs, parcel.id),
                                  EffectiveTolerance(q.tolerance, proposal), Text.TrimSpace(q.key), actor))
  }

  lemma {:induction false} NeighbourPartsSeeTextsOnly(a: seq<Parcel>, b: seq<Parcel>)
    requires SameNeighbours(a, b)
    ensures NeighbourParts(a) == NeighbourParts(b)
  {
    if a != [] {
      NeighbourPartsSeeTextsOnly(a[..|a| - 1], b[..|b| - 1]);
    }
  }

  // A run depends on the proposal, on the parcel's texts, and on the neighbours' IDs and boundaries.
  lemma RunsSeeTextsOnly(lib: Library, p1: Proposal, p2: Proposal, parcel1: Parcel, parcel2: Parcel,
                         n1: seq<Parcel>, n2: seq<Parcel>, tolerance: Micrometres, key: string, actor: Actor)
    requires p1.id == p2.id && p1.boundary == p2.boundary && SameNeighbours(n1, n2)
    requires parcel1.id == parcel2.id && parcel1.boundary == parcel2.boundary && parcel1.crs == parcel2.crs
    ensures AfterReadingNeighbours(lib, p1, parcel1, n1, tolerance, key, actor)
         == AfterReadingNeighbours(lib, p2, parcel2, n2, tolerance, key, actor)
  {
    NeighbourPartsSeeTextsOnly(n1, n2);
    ReferencesSeeTextsOnly(lib, n1, n2);
    var outcome := Compute(lib, parcel1.boundary, p1.boundary, n1, tolerance);
    assert outcome == Compute(lib, parcel2.boundary, p2.boundary, n2, tolerance);
    if outcome.Ok? {
      var hash := InputHash(lib, parcel1, p1, n1, tolerance);
      assert NewConflicts(parcel1, p1, hash, outcome.value) == NewConflicts(parcel2, p2, hash, outcome.value);
    }
  }

  // The four look-ups of a detection whose key is free.
  lemma FirstLookUps(lib: Library, d: Db, q: Request, actor: Actor, ids: Ids, proposal: Proposal, tolerance: Micrometres, key: string)
    requires RunsOk(d) && q.DetectRequest? && KeyAccepted(q.key) && q.proposalId in d.proposals && proposal == d.proposals[q.proposalId]
    requires tolerance == EffectiveTolerance(q.tolerance, proposal) && key == Text.TrimSpace(q.key) && !RunKeyTaken(d, actor.id, key)
    ensures RunAlone(lib, d, Client(q, actor, Start), ids) == RunAlone(lib, d, Client(q, actor, ReadDetectionParcel(proposal, tolerance, key)), ids)
  {
    hide RunsOk, RequestHash, RunAlone, RunOf, RunKeyTaken, KeyAccepted;
    var c := Client(q, actor, Start);
    RunOfFinds(d, actor.id, key);
    RunReading(lib, d, c, ids);
    RunReading(lib, d, c.(stage := FindRun(proposal, tolerance, key)), ids);
  }

  lemma LastLookUps(lib: Library, d: Db, c: Client, ids: Ids, proposal: Proposal, tolerance: Micrometres, key: string)
    requires c.stage == ReadDetectionParcel(proposal, tolerance, key) && proposal.parcelId in d.parcels
    requires d.parcels[proposal.parcelId].id == proposal.parcelId
    ensures var parcel := d.parcels[proposal.parcelId];
            RunAlone(lib, d, c, ids) ==
              RunAlone(lib, d, c.(stage := AfterReadingNeighbours(lib, proposal, parcel, ActiveNeighbours(d, parcel.crs, parcel.id), tolerance, key, c.actor)), ids)
  {
    hide RunAlone, ActiveNeighbours, AfterReadingNeighbours;
    RunReading(lib, d, c, ids);
    RunReading(lib, d, c.(stage := ReadNeighbours(proposal, d.parcels[proposal.parcelId], tolerance, key)), ids);
  }

  lemma DetectionServed(lib: Library, d: Db, q: Request, actor: Actor, ids: Ids)
    requires StoreOk(lib, d) && q.DetectRequest? && KeyAccepted(q.key)
    requires RecordedNow(lib, d, q, actor).Some? && !RunKeyTaken(d, actor.id, Text.TrimSpace(q.key))
    ensures var end := RunAlone(lib, d, Client(q, actor, RecordedNow(lib, d, q, actor).value), ids);
            Serve(lib, d, q, actor, ids) == (end.0, end.1.stage.reply)
  {
    OpenStore(lib, d);
    hide StoreOk, ParcelsOk, RunsOk, RunAlone, RunKeyTaken, KeyAccepted, AfterReadingNeighbours, ActiveNeighbours;
    var proposal := d.proposals[q.proposalId];
    var tolerance, key := EffectiveTolerance(q.tolerance, proposal), Text.TrimSpace(q.key);
    CurrentParcelIsKnown(d, proposal.parcelId);
    FirstLookUps(lib, d, q, actor, ids, proposal, tolerance, key);
    LastLookUps(lib, d, Client(q, actor, ReadDetectionParcel(proposal, tolerance, key)), ids, proposal, tolerance, key);
  }

  lemma {:induction false} ReplayWritesNothing(lib: Library, d: Db, c: Client, ids: Ids)
    requires c.stage.FindRunAgain? || c.stage.ReplayRun? || c.stage.Finished?
    ensures RunAlone(lib, d, c, ids).0 == d
    decreases Remaining(c)
  {
    if !c.stage.Finished? {
      hide RunOf, Replayed;
      StepsRunOut(lib, d, c, ids);
      RunReading(lib, d, c, ids);
      ReplayFinishes(d);
      ReplayWritesNothing(lib, d, c.(stage := Reading(lib, d, c)), ids);
    }
  }

  lemma ReplayFinishes(d: Db)
    ensures forall run :: Replayed(d, run).Finished?
  {
  }

  // Two detections that leave the same store and reply recorded the same run.
  lemma RecordingIsInjective(lib: Library, d: Db, q: Request, actor: Actor, ids: Ids, t1: Tx, t2: Tx)
    requires q.DetectRequest? && q.proposalId in d.proposals && NewRunOk(lib, d, q, actor, t1) && NewRunOk(lib, d, q, actor, t2)
    requires Execute(d, t1, actor, ids).Ok? && Execute(d, t1, actor, ids) == Execute(d, t2, actor, ids)
    ensures t1 == t2
  {
    hide InsertConflicts, RequestHash, KeyAccepted;
    var done := Execute(d, t1, actor, ids).value;
    RunsWritten(d, t1, actor, ids);
    RunsWritten(d, t2, actor, ids);
    InsertingNeedsIds(d, t1.items, ids.items, actor, t1.parcelId);
    InsertingNeedsIds(d, t2.items, ids.items, actor, t2.parcelId);
    assert done.db.runs[ids.row].(id := 0, resultIds := []) == t1.run;
    assert done.db.runs[ids.row].(id := 0, resultIds := []) == t2.run;
    var a, b := Numbered(t1.items, ids.items), Numbered(t2.items, ids.items);
    assert a == b;
    forall i | 0 <= i < |t1.items| ensures t1.items[i] == t2.items[i] {
      assert a[i].(id := 0) == t1.items[i] && b[i].(id := 0) == t2.items[i];
    }
    assert t1.items == t2.items;
  }

  // A detection that commits is atomic at that moment exactly when it would record the same now.
  lemma WinnerRecordsTheSame(lib: Library, events: seq<Event>, who: nat, ids: Ids)
    requires DetectionBy(After(lib, events), who) && After(lib, events).clients[who].stage.Commit?
    requires var s := After(lib, events); var c := s.clients[who]; Execute(s.db, c.stage.tx, c.actor, ids).Ok?
    ensures var s := After(lib, events); var c := s.clients[who]; var done := Execute(s.db, c.stage.tx, c.actor, ids).value;
            Serve(lib, s.db, c.request, c.actor, ids) == (done.db, done.reply)
            <==> RecordedNow(lib, s.db, c.request, c.actor) == Some(c.stage)
  {
    hide After, RequestHash, RunAlone, Execute, RunKeyTaken, KeyAccepted, AfterReadingNeighbours, StoreOk, Serve;
    AlwaysOk(lib, events);
    DetectionsAlwaysOk(lib, events);
    var s := After(lib, events);
    var d, c := s.db, s.clients[who];
    var q, tx, done := c.request, c.stage.tx, Execute(s.db, c.stage.tx, c.actor, ids).value;
    assert DetectionOk(lib, d, q, c.actor, c.stage);
    if RunKeyTaken(d, c.actor.id, Text.TrimSpace(q.key)) {
      TakenKeyFails(d, tx, c.actor, ids);
    }
    ParcelsOfProposals(lib, d, q.proposalId);
    var now := RecordedNow(lib, d, q, c.actor).value;
    DetectionServed(lib, d, q, c.actor, ids);
    RecordedNowIsOk(lib, d, q, c.actor);
    RunsWritten(d, tx, c.actor, ids);
    var start := Client(q, c.actor, now);
    if now.Commit? && Execute(d, now.tx, c.actor, ids).Ok? {
      RunCommit(lib, d, start, ids);
    } else {
      if now.Commit? {
        LosingRun(lib, d, start, ids);
      }
      ReplayWritesNothing(lib, d, if now.Commit? then start.(stage := FindRunAgain(now.tx.run.requestHash, now.tx.run.key)) else start, ids);
    }
    if Serve(lib, d, q, c.actor, ids) == (done.db, done.reply) {
      assert now.Commit? && Execute(d, now.tx, c.actor, ids) == Execute(d, tx, c.actor, ids);
      RecordingIsInjective(lib, d, q, c.actor, ids, tx, now.tx);
    }
  }

  lemma ParcelsOfProposals(lib: Library, d: Db, p: Id)
    requires StoreOk(lib, d) && p in d.proposals
    ensures d.proposals[p].parcelId in d.parcels
  {
    assert GroundedOk(lib, d);
    assert Grounded(lib, d, d.proposals[p]);
  }

  lemma RecordedNowIsOk(lib: Library, d: Db, q: Request, actor: Actor)
    requires StoreOk(lib, d) && q.DetectRequest? && KeyAccepted(q.key) && RecordedNow(lib, d, q, actor).Some?
    ensures var now := RecordedNow(lib, d, q, actor).value;
            DetectionOk(lib, d, q, actor, now) && (now.Commit? || (now.Finished? && now.reply.Failure?))
  {
    OpenStore(lib, d);
    hide StoreOk, ParcelsOk, ObservationsOk, ProposalsOk, ConflictsOk, RequestHash, KeyAccepted, AfterReadingNeighbours, ActiveNeighbours;
    RowIds(d, q.proposalId);
    var proposal := d.proposals[q.proposalId];
    var parcel := d.parcels[proposal.parcelId];
    CurrentParcelIsKnown(d, proposal.parcelId);
    var neighbours, tolerance := ActiveNeighbours(d, parcel.crs, parcel.id), EffectiveTolerance(q.tolerance, proposal);
    SearchesNow(d, q, proposal, tolerance);
    hide SearchOk, DetectionOk;
    NewRunFromNeighbours(lib, d, q, actor, proposal, parcel, neighbours, tolerance, Text.TrimSpace(q.key));
    CommitsOrFails(lib, proposal, parcel, neighbours, tolerance, Text.TrimSpace(q.key), actor);
  }

  lemma SearchesNow(d: Db, q: Request, proposal: Proposal, tolerance: Micrometres)
    requires q.DetectRequest? && KeyAccepted(q.key) && q.proposalId in d.proposals && proposal == d.proposals[q.proposalId]
    requires proposal.id == q.proposalId && tolerance == EffectiveTolerance(q.tolerance, proposal)
    ensures SearchOk(d, q, proposal, tolerance, Text.TrimSpace(q.key))
  {
    hide KeyAccepted;
  }

  lemma CommitsOrFails(lib: Library, proposal: Proposal, parcel: Parcel, neighbours: seq<Parcel>, tolerance: Micrometres, key: string, actor: Actor)
    ensures var now := AfterReadingNeighbours(lib, proposal, parcel, neighbours, tolerance, key, actor);
            now.Commit? || (now.Finished? && now.reply.Failure?)
  {
  }
}
