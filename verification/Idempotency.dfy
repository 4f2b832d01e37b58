/**
 Idempotent detection: under any number of concurrent requests one actor's key
 yields one run, and every success for it reports that run.
 */
module Idempotency {
  import opened Basics
  import Text
  import opened Framing
  import opened ParcelIds
  import opened Lifecycles
  import opened Records
  import opened Analysis
  import opened Transactions
  import opened Protocol
  import opened Trails
  import opened Growth
  import opened Invariants
  import opened Interleaving

  function IdsOf(items: seq<Conflict>): seq<Id> {
    seq(|items|, i requires 0 <= i < |items| => items[i].id)
  }

  // The hash a detection must find in a run before it may replay it.
  function WantedHash(lib: Library, d: Db, q: Request): string
    requires q.DetectRequest? && q.proposalId in d.proposals
  {
    RequestHash(lib, q.proposalId, EffectiveTolerance(q.tolerance, d.proposals[q.proposalId]))
  }

  ghost predicate RunFor(run: DetectionRun, actor: Actor, q: Request)
    requires q.DetectRequest?
  {
    run.actorId == actor.id && run.key == Text.TrimSpace(q.key)
  }

  // ---- What a detection carries from stage to stage ----

  ghost predicate SearchOk(d: Db, q: Request, proposal: Proposal, tolerance: Micrometres, key: string)
    requires q.DetectRequest? && q.proposalId in d.proposals
  {
    && KeyAccepted(q.key) && key == Text.TrimSpace(q.key)
    && proposal.id == q.proposalId && ProposalLater(proposal, d.proposals[q.proposalId])
    && tolerance == EffectiveTolerance(q.tolerance, proposal)
  }

  ghost predicate NewRunOk(lib: Library, d: Db, q: Request, actor: Actor, tx: Tx)
    requires q.DetectRequest? && q.proposalId in d.proposals
  {
    && tx.RecordRun? && KeyAccepted(q.key) && RunFor(tx.run, actor, q)
    && tx.run.proposalId == q.proposalId && tx.run.requestHash == WantedHash(lib, d, q)
    && tx.run.id == 0 && tx.run.resultIds == []
    && (forall i :: 0 <= i < |tx.items| ==> tx.items[i].id == 0)
    && (forall p :: p in d.proposals && p == q.proposalId ==> tx.parcelId == d.proposals[p].parcelId)
  }

  ghost predicate Holds(d: Db, run: DetectionRun) {
    run.id in d.runs && d.runs[run.id] == run
  }

  // Some stored run for this actor and key carries the hash and the results.
  ghost predicate Reported(d: Db, actor: Actor, q: Request, hash: string, results: seq<Id>)
    requires q.DetectRequest?
  {
    exists run :: Holds(d, run) && RunFor(run, actor, q) && run.requestHash == hash && run.resultIds == results
  }

  ghost predicate KeyReused(d: Db, actor: Actor, q: Request, hash: string)
    requires q.DetectRequest?
  {
    exists run :: Holds(d, run) && RunFor(run, actor, q) && run.requestHash != hash
  }

  ghost predicate ReplyOk(lib: Library, d: Db, q: Request, actor: Actor, reply: Reply)
    requires q.DetectRequest?
  {
    match reply
    case ConflictsReply(items) => q.proposalId in d.proposals && Reported(d, actor, q, WantedHash(lib, d, q), IdsOf(items))
    case Failure(error) => error == StateConflict ==> q.proposalId in d.proposals && KeyReused(d, actor, q, WantedHash(lib, d, q))
    case _ => false
  }

  ghost predicate DetectionOk(lib: Library, d: Db, q: Request, actor: Actor, stage: Stage)
    requires q.DetectRequest?
  {
    match stage
    case Start => true
    case Finished(reply) => ReplyOk(lib, d, q, actor, reply)
    case _ =>
      && q.proposalId in d.proposals
      && match stage
         case FindRun(p, t, k) => SearchOk(d, q, p, t, k)
         case ReadDetectionParcel(p, t, k) => SearchOk(d, q, p, t, k)
         case ReadNeighbours(p, parcel, t, k) => SearchOk(d, q, p, t, k) && parcel.id == p.parcelId
         case Commit(tx) => NewRunOk(lib, d, q, actor, tx)
         case FindRunAgain(h, k) => h == WantedHash(lib, d, q) && k == Text.TrimSpace(q.key)
         case ReplayRun(run) => Holds(d, run) && RunFor(run, actor, q) && run.requestHash == WantedHash(lib, d, q)
         case _ => false
  }

  // ---- Replaying ----

  lemma {:induction false} ListedConflicts(d: Db, ids: seq<Id>)
    requires ConflictsOk(d)
    ensures ConflictsByIds(d.conflicts, ids).Some? <==> forall i :: 0 <= i < |ids| ==> ids[i] in d.conflicts
    ensures ConflictsByIds(d.conflicts, ids).Some? ==> IdsOf(ConflictsByIds(d.conflicts, ids).value) == ids
  {
    if ids != [] {
      var n := |ids| - 1;
      ListedConflicts(d, ids[..n]);
      assert ids == ids[..n] + [ids[n]];
      if ids[n] in d.conflicts {
        assert ConflictTracked(Lookup(d.conflicts, ids[n]), ids[n], Trail(d.audits, ConflictResource, ids[n]));
      }
    }
  }

  lemma ReplayFindsAll(d: Db, run: DetectionRun)
    requires ConflictsOk(d) && RunsOk(d) && Holds(d, run)
    ensures Replayed(d, run).Finished? && Replayed(d, run).reply.ConflictsReply?
    ensures IdsOf(Replayed(d, run).reply.conflicts) == run.resultIds
  {
    assert RunOk(d, run.id);
    ListedConflicts(d, run.resultIds);
  }

  lemma RunOfFinds(d: Db, actorId: Id, key: string)
    requires RunsOk(d)
    ensures RunOf(d, actorId, key).Some? <==> RunKeyTaken(d, actorId, key)
    ensures RunOf(d, actorId, key).Some? ==> var run := RunOf(d, actorId, key).value;
              Holds(d, run) && run.actorId == actorId && run.key == key
  {
    var matching := set k | k in d.runs && d.runs[k].actorId == actorId && d.runs[k].key == key;
    if matching != {} {
      var k := Ascending(matching)[0];
      assert k in matching;
      assert RunOk(d, k);
    }
    if RunKeyTaken(d, actorId, key) {
      var k :| k in d.runs && d.runs[k].actorId == actorId && d.runs[k].key == key;
      assert k in matching;
    }
  }

  // ---- Every stage keeps it ----

  lemma FoundRunOk(lib: Library, d: Db, q: Request, actor: Actor, run: DetectionRun)
    requires q.DetectRequest? && q.proposalId in d.proposals && Holds(d, run) && RunFor(run, actor, q)
    ensures if run.requestHash != WantedHash(lib, d, q) then DetectionOk(lib, d, q, actor, Fail(StateConflict))
            else DetectionOk(lib, d, q, actor, ReplayRun(run))
  {
    hide RequestHash;
  }

  lemma FoundRun(lib: Library, d: Db, q: Request, actor: Actor, otherwise: Stage)
    requires RunsOk(d) && q.DetectRequest? && q.proposalId in d.proposals
    requires !RunKeyTaken(d, actor.id, Text.TrimSpace(q.key)) ==> DetectionOk(lib, d, q, actor, otherwise)
    ensures DetectionOk(lib, d, q, actor, AfterFindingRun(RunOf(d, actor.id, Text.TrimSpace(q.key)), WantedHash(lib, d, q), otherwise))
  {
    hide RequestHash, RunOf, RunKeyTaken, RunsOk;
    RunOfFinds(d, actor.id, Text.TrimSpace(q.key));
    hide DetectionOk;
    var found := RunOf(d, actor.id, Text.TrimSpace(q.key));
    if found.Some? {
      FoundRunOk(lib, d, q, actor, found.value);
    }
  }

  lemma AnalysisErrors(lib: Library, base: string, proposed: string, neighbours: seq<Parcel>, tolerance: Micrometres)
    ensures Compute(lib, base, proposed, neighbours, tolerance) != Err(StateConflict)
  {
  }

  lemma Unnumbered(parcel: Parcel, proposal: Proposal, inputHash: string, outcome: Analysis.Outcome)
    ensures forall i :: 0 <= i < |NewConflicts(parcel, proposal, inputHash, outcome)| ==> NewConflicts(parcel, proposal, inputHash, outcome)[i].id == 0
  {
  }

  lemma NewRunFromNeighbours(lib: Library, d: Db, q: Request, actor: Actor, proposal: Proposal, parcel: Parcel,
                             neighbours: seq<Parcel>, tolerance: Micrometres, key: string)
    requires q.DetectRequest? && q.proposalId in d.proposals && SearchOk(d, q, proposal, tolerance, key)
    requires parcel.id == proposal.parcelId
    ensures DetectionOk(lib, d, q, actor, AfterReadingNeighbours(lib, proposal, parcel, neighbours, tolerance, key, actor))
  {
    hide RequestHash, InputHash, Compute, NewConflicts, KeyAccepted;
    AnalysisErrors(lib, parcel.boundary, proposal.boundary, neighbours, tolerance);
    var outcome := Compute(lib, parcel.boundary, proposal.boundary, neighbours, tolerance);
    if outcome.Ok? {
      Unnumbered(parcel, proposal, InputHash(lib, parcel, proposal, neighbours, tolerance), outcome.value);
    }
  }

  lemma DetectionReads(lib: Library, d: Db, c: Client)
    requires StoreOk(lib, d) && c.request.DetectRequest? && !c.stage.Commit?
    requires DetectionOk(lib, d, c.request, c.actor, c.stage)
    ensures DetectionOk(lib, d, c.request, c.actor, Reading(lib, d, c))
  {
    hide RequestHash, AfterReadingNeighbours, RunOf, ActiveNeighbours, Replayed, KeyAccepted;
    hide ParcelsOk, ObservationsOk, ProposalsOk, ConflictsOk, LinksOk, GroundedOk, RunsOk, OneToOne, Origins, Applied;
    var q := c.request;
    match c.stage
    case Start => RowIds(d, q.proposalId);
    case FindRun(p, t, k) => FoundRun(lib, d, q, c.actor, ReadDetectionParcel(p, t, k));
    case ReadDetectionParcel(p, t, k) =>
      if p.parcelId in d.parcels { CurrentParcelIsKnown(d, p.parcelId); }
    case ReadNeighbours(p, parcel, t, k) =>
      NewRunFromNeighbours(lib, d, q, c.actor, p, parcel, ActiveNeighbours(d, parcel.crs, parcel.id), t, k);
    case FindRunAgain(h, k) => FoundRun(lib, d, q, c.actor, Fail(Internal));
    case ReplayRun(run) =>
      ReplayFindsAll(d, run);
      assert Holds(d, run);
    case Finished(_) =>
  }

  lemma RecordedRun(d: Db, tx: Tx, actor: Actor, ids: Ids)
    requires tx.RecordRun? && Execute(d, tx, actor, ids).Ok?
    ensures var done := Execute(d, tx, actor, ids).value;
            && done.reply.ConflictsReply?
            && Holds(done.db, tx.run.(id := ids.row, resultIds := IdsOf(done.reply.conflicts)))
  {
    hide InsertConflicts;
    var done := Execute(d, tx, actor, ids).value;
    InsertingNeedsIds(d, tx.items, ids.items, actor, tx.parcelId);
    assert IdsOf(done.reply.conflicts) == ids.items[..|tx.items|];
  }

  lemma DetectionIsStable(lib: Library, d: Db, d': Db, q: Request, actor: Actor, stage: Stage)
    requires Later(d, d') && q.DetectRequest? && DetectionOk(lib, d, q, actor, stage)
    ensures DetectionOk(lib, d', q, actor, stage)
  {
    hide RequestHash, KeyAccepted;
    if q.proposalId in d.proposals {
      assert ProposalLater(d.proposals[q.proposalId], d'.proposals[q.proposalId]);
      assert WantedHash(lib, d', q) == WantedHash(lib, d, q);
      assert forall run :: Holds(d, run) ==> Holds(d', run);
    }
  }

  lemma DetectionCommits(lib: Library, d: Db, c: Client, ids: Ids)
    requires c.request.DetectRequest? && c.stage.Commit? && DetectionOk(lib, d, c.request, c.actor, c.stage)
    requires Later(d, Step(lib, d, c, ids).0)
    ensures DetectionOk(lib, Step(lib, d, c, ids).0, c.request, c.actor, Step(lib, d, c, ids).1.stage)
  {
    hide RequestHash, KeyAccepted, Execute, Later;
    var tx := c.stage.tx;
    if Execute(d, tx, c.actor, ids).Ok? {
      var done := Execute(d, tx, c.actor, ids).value;
      RecordedRun(d, tx, c.actor, ids);
      DetectionIsStable(lib, d, done.db, c.request, c.actor, c.stage);
      assert Holds(done.db, tx.run.(id := ids.row, resultIds := IdsOf(done.reply.conflicts)));
    }
  }

  ghost predicate DetectionsOk(lib: Library, s: System) {
    forall who :: who in s.clients && s.clients[who].request.DetectRequest? ==>
      DetectionOk(lib, s.db, s.clients[who].request, s.clients[who].actor, s.clients[who].stage)
  }

  lemma EventKeepsDetections(lib: Library, s: System, event: Event)
    requires SystemOk(lib, s) && DetectionsOk(lib, s)
    ensures DetectionsOk(lib, Apply(lib, s, event))
  {
    EventIsOk(lib, s, event);
    hide StoreOk, StageOk, Step, Later;
    var s' := Apply(lib, s, event);
    forall other | other in s'.clients && s'.clients[other].request.DetectRequest?
      ensures DetectionOk(lib, s'.db, s'.clients[other].request, s'.clients[other].actor, s'.clients[other].stage)
    {
      if other in s.clients {
        var c := s.clients[other];
        DetectionIsStable(lib, s.db, s'.db, c.request, c.actor, c.stage);
        if event.Act? && event.who == other && Busy(s, other) {
          OwnStepKeeps(lib, s.db, c, event.ids);
        }
      }
    }
  }

  lemma OwnStepKeeps(lib: Library, d: Db, c: Client, ids: Ids)
    requires StoreOk(lib, d) && c.request.DetectRequest? && DetectionOk(lib, d, c.request, c.actor, c.stage)
    requires Later(d, Step(lib, d, c, ids).0)
    ensures var (d', c') := Step(lib, d, c, ids);
            c'.request == c.request && c'.actor == c.actor && DetectionOk(lib, d', c'.request, c'.actor, c'.stage)
  {
    hide StoreOk, Later, DetectionOk, Execute, Reading;
    if c.stage.Commit? {
      DetectionCommits(lib, d, c, ids);
    } else {
      DetectionReads(lib, d, c);
    }
  }

  lemma {:induction false} DetectionsAlwaysOk(lib: Library, events: seq<Event>)
    ensures DetectionsOk(lib, After(lib, events))
  {
    hide SystemOk, DetectionOk, Apply;
    if events != [] {
      var front := events[..|events| - 1];
      DetectionsAlwaysOk(lib, front);
      AlwaysOk(lib, front);
      EventKeepsDetections(lib, After(lib, front), events[|events| - 1]);
    }
  }
}
