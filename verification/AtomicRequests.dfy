/**
 The atomic service in full: a request served alone is refused by its verdict,
 or has done what it asked, or is a detection answered from its stored run.
 */
module AtomicRequests {
  import opened Basics
  import Text
  import opened Lifecycles
  import opened Polygons
  import opened Records
  import opened Analysis
  import opened Transactions
  import opened Protocol
  import opened Invariants
  import opened Interleaving
  import opened Refinement
  import opened ExactlyOnce
  import opened Calls
  import opened Reviews
  import opened Effects
  import opened Verdicts

  // ---- How a client alone ends ----

  // Only detections search and replay; what has ended so far is a refusal or a replay.
  ghost predicate UnderWay(c: Client) {
    match c.stage
    case Finished(reply) => reply.Failure? || (reply.ConflictsReply? && c.request.DetectRequest?)
    case Commit(tx) => tx.RecordRun? ==> c.request.DetectRequest?
    case FindRun(_, _, _) => c.request.DetectRequest?
    case ReadDetectionParcel(_, _, _) => c.request.DetectRequest?
    case ReadNeighbours(_, _, _, _) => c.request.DetectRequest?
    case FindRunAgain(_, _) => c.request.DetectRequest?
    case ReplayRun(_) => c.request.DetectRequest?
    case _ => true
  }

  lemma StartsUnderWay(lib: Library, d: Db, c: Client)
    ensures UnderWay(c.(stage := Started(lib, d, c.request, c.actor)))
  {
    hide RequestHash, Patched, KeyAccepted, Parsed, CreatedProposal, MayMoveProposal, CanProposalTransition, CanConflictTransition,
      CanObservationTransition, Text.TrimSpace;
  }

  lemma LookUpsStayUnderWay(lib: Library, d: Db, c: Client)
    requires UnderWay(c) && !c.stage.Commit? && !c.stage.Finished?
    ensures UnderWay(c.(stage := Reading(lib, d, c)))
  {
    hide Started, Compute, InputHash, RequestHash, NewConflicts, RunOf, ActiveNeighbours, ConflictsByIds, DerivedProposal, CreatedProposal, Parsed;
    if c.stage.Start? {
      hide UnderWay;
      StartsUnderWay(lib, d, c);
    }
  }

  // After `n` look-ups the client commits this transaction, and that is its end.
  ghost predicate CommitsAfter(lib: Library, d: Db, c: Client, ids: Ids, n: nat, tx: Tx) {
    && LooksTo(lib, d, c, n, Commit(tx)) && Execute(d, tx, c.actor, ids).Ok?
    && RunAlone(lib, d, c, ids).0 == Execute(d, tx, c.actor, ids).value.db
    && RunAlone(lib, d, c, ids).1.stage == Finished(Execute(d, tx, c.actor, ids).value.reply)
  }

  ghost predicate EndsUnwritten(lib: Library, d: Db, c: Client, ids: Ids) {
    var end := RunAlone(lib, d, c, ids);
    end.0 == d && (end.1.stage.reply.Failure? || (end.1.stage.reply.ConflictsReply? && c.request.DetectRequest?))
  }

  lemma {:induction false} SearchEnds(lib: Library, d: Db, c: Client, ids: Ids)
    requires UnderWay(c) && (c.stage.FindRunAgain? || c.stage.ReplayRun? || c.stage.Finished?)
    ensures EndsUnwritten(lib, d, c, ids)
    decreases Remaining(c)
  {
    if !c.stage.Finished? {
      StepsRunOut(lib, d, c, ids);
      RunReading(lib, d, c, ids);
      LookUpsStayUnderWay(lib, d, c);
      ReplayFinishes(d);
      hide RunOf, Replayed, RunAlone, UnderWay, Remaining;
      SearchEnds(lib, d, c.(stage := Reading(lib, d, c)), ids);
    }
  }

  lemma CommittingEnds(lib: Library, d: Db, c: Client, ids: Ids)
    requires UnderWay(c) && c.stage.Commit?
    ensures EndsUnwritten(lib, d, c, ids) || CommitsAfter(lib, d, c, ids, 0, c.stage.tx)
  {
    hide RunAlone, Execute;
    RunCommit(lib, d, c, ids);
    if Execute(d, c.stage.tx, c.actor, ids).Ok? {
      NoLook(lib, d, c);
    } else if c.stage.tx.RecordRun? {
      LosingRun(lib, d, c, ids);
      SearchEnds(lib, d, c.(stage := FindRunAgain(c.stage.tx.run.requestHash, c.stage.tx.run.key)), ids);
    }
  }

  lemma {:induction false} AloneEnds(lib: Library, d: Db, c: Client, ids: Ids)
    requires UnderWay(c)
    ensures EndsUnwritten(lib, d, c, ids) || exists n: nat, tx :: CommitsAfter(lib, d, c, ids, n, tx)
    decreases Remaining(c)
  {
    if c.stage.Finished? {
    } else if c.stage.Commit? {
      CommittingEnds(lib, d, c, ids);
    } else {
      StepsRunOut(lib, d, c, ids);
      LookUpsStayUnderWay(lib, d, c);
      RunReading(lib, d, c, ids);
      hide Reading, RunAlone, UnderWay, Remaining, Execute, LooksTo;
      var next := c.(stage := Reading(lib, d, c));
      AloneEnds(lib, d, next, ids);
      if n: nat, tx :| CommitsAfter(lib, d, next, ids, n, tx) {
        OneLook(lib, d, c, Reading(lib, d, c), n, Commit(tx));
        assert CommitsAfter(lib, d, c, ids, n + 1, tx);
      }
    }
  }

  // ---- The same end within a run of the system ----

  lemma {:induction false} Unused(taken: set<nat>) returns (who: nat)
    ensures who !in taken && forall k :: k in taken ==> k < who
  {
    who := 0;
    if taken != {} {
      var k :| k in taken;
      var bound := Unused(taken - {k});
      who := if bound <= k then k + 1 else bound;
      assert taken == (taken - {k}) + {k};
    }
  }

  lemma CommitOfRun(lib: Library, events: seq<Event>, q: Request, actor: Actor, ids: Ids, n: nat, tx: Tx) returns (more: seq<Event>, who: nat)
    requires LooksTo(lib, After(lib, events).db, Client(q, actor, Start), n, Commit(tx))
    ensures var s := After(lib, events + more);
            s.db == After(lib, events).db && who in s.clients && s.clients[who] == Client(q, actor, Commit(tx))
  {
    hide LooksTo, After;
    var s, c := After(lib, events), Client(q, actor, Start);
    who := Unused(s.clients.Keys);
    var arrive, acts := [Arrive(who, q, actor)], Acts(who, ids, n);
    more := arrive + acts;
    var s' := s.(clients := s.clients[who := c]);
    assert arrive[1..] == [] && Apply(lib, s, arrive[0]) == s';
    assert Played(lib, s, arrive) == s';
    AfterMore(lib, events, more);
    PlayedOn(lib, s, arrive, acts);
    LookingAhead(lib, s', who, ids, n, Commit(tx));
  }

  lemma CommittedAloneAsAsked(lib: Library, events: seq<Event>, q: Request, actor: Actor, ids: Ids, n: nat, tx: Tx)
    requires CommitsAfter(lib, After(lib, events).db, Client(q, actor, Start), ids, n, tx)
    ensures DoneAsAsked(lib, After(lib, events).db, Serve(lib, After(lib, events).db, q, actor, ids).0, q, actor, ids)
  {
    hide LooksTo, After, Execute, RunAlone, DoneAsAsked;
    var more, who := CommitOfRun(lib, events, q, actor, ids, n, tx);
    CommitsDoAsAsked(lib, events + more, who, ids);
    var s := After(lib, events + more);
    assert Apply(lib, s, Act(who, ids)).db == Execute(s.db, tx, actor, ids).value.db;
  }

  // With a free key a detection that is not refused has written its run.
  lemma FreeKeyWrites(lib: Library, d: Db, q: Request, actor: Actor, ids: Ids)
    requires StoreOk(lib, d) && q.DetectRequest? && KeyAccepted(q.key) && !RunKeyTaken(d, actor.id, Text.TrimSpace(q.key))
    requires q.proposalId in d.proposals && d.proposals[q.proposalId].parcelId in d.parcels
    ensures Serve(lib, d, q, actor, ids).1.Failure? || Serve(lib, d, q, actor, ids).0 != d
  {
    hide StoreOk, RunsOk, RunAlone, Serve, RunKeyTaken, KeyAccepted, Execute, Compute, ActiveNeighbours, RecordedNow, Text.TrimSpace;
    assert RunsOk(d) by { OpenStore(lib, d); }
    NewRunStage(lib, d, q, actor);
    DetectionServed(lib, d, q, actor, ids);
    var stage := RecordedNow(lib, d, q, actor).value;
    var c := Client(q, actor, stage);
    if stage.Finished? {
      DecidedIsTheRun(lib, d, c, ids);
    } else if Execute(d, stage.tx, actor, ids).Ok? {
      RunCommit(lib, d, c, ids);
      RunsWritten(d, stage.tx, actor, ids);
    } else {
      FreeKeyLoses(lib, d, c, ids);
    }
  }

  ghost predicate AnsweredFromItsRun(d: Db, q: Request, actor: Actor, end: (Db, Reply)) {
    q.DetectRequest? && RunKeyTaken(d, actor.id, Text.TrimSpace(q.key)) && end.0 == d && end.1.ConflictsReply?
  }

  lemma AcceptedKey(lib: Library, d: Db, q: Request, actor: Actor, ids: Ids)
    requires q.DetectRequest? && (q.proposalId in d.proposals ==> d.proposals[q.proposalId].parcelId in d.parcels)
    requires DetectVerdict(lib, d, q, actor, ids).None?
    ensures KeyAccepted(q.key) && q.proposalId in d.proposals
  {
    hide NewRunVerdict, RequestHash, Text.TrimSpace;
  }

  /** In every reachable state a request served alone is refused by its verdict, or
      has done what it asked and nothing else, or is a detection whose key has been
      used, answered from its run with the store unchanged. */
  lemma RequestsAreServed(lib: Library, events: seq<Event>, q: Request, actor: Actor, ids: Ids)
    ensures var d := After(lib, events).db; var end := Serve(lib, d, q, actor, ids);
            && (q.DetectRequest? && q.proposalId in d.proposals ==> d.proposals[q.proposalId].parcelId in d.parcels)
            && match Verdict(lib, d, q, actor, ids)
               case Some(error) => end == (d, Failure(error))
               case None => DoneAsAsked(lib, d, end.0, q, actor, ids) || AnsweredFromItsRun(d, q, actor, end)
  {
    hide After, StoreOk, RunAlone, DoneAsAsked, DetectVerdict, RunKeyTaken, CommitsAfter, KeyAccepted;
    var d, c := After(lib, events).db, Client(q, actor, Start);
    RequestsAreJudged(lib, events, q, actor, ids);
    AlwaysOk(lib, events);
    if Verdict(lib, d, q, actor, ids).None? {
      AloneEnds(lib, d, c, ids);
      if n: nat, tx :| CommitsAfter(lib, d, c, ids, n, tx) {
        CommittedAloneAsAsked(lib, events, q, actor, ids, n, tx);
      } else {
        AcceptedKey(lib, d, q, actor, ids);
        if !RunKeyTaken(d, actor.id, Text.TrimSpace(q.key)) {
          FreeKeyWrites(lib, d, q, actor, ids);
        }
      }
    }
  }

  // The row an application inserts.
  lemma AppliedRow(d: Db, item: Conflict, derived: Proposal, actor: Actor, ids: Ids)
    requires Decided(d, Commit(ApplySuggestion(item, derived)), actor, ids).Some?
    requires !Decided(d, Commit(ApplySuggestion(item, derived)), actor, ids).value.1.Failure?
    ensures var d' := Decided(d, Commit(ApplySuggestion(item, derived)), actor, ids).value.0;
            ids.row in d'.proposals && d'.proposals[ids.row] == derived.(id := ids.row)
  {
  }

  /** Served alone, an accepted application derives the next version of its source,
      on the current version of the parcel. */
  lemma AppliedDraftIsNext(lib: Library, events: seq<Event>, id: Id, rationale: string, actor: Actor, ids: Ids)
    requires ApplyVerdict(lib, After(lib, events).db, id, actor, ids).None?
    ensures var d := After(lib, events).db; var d' := Serve(lib, d, ApplyRequest(id, rationale), actor, ids).0;
            && id in d.conflicts && d.conflicts[id].proposalId in d.proposals && ids.row in d'.proposals
            && var source := d.proposals[d.conflicts[id].proposalId];
               && source.parcelId in d.parcels
               && d'.proposals[ids.row].version == source.version + 1 && d'.proposals[ids.row].baseVersion == d.parcels[source.parcelId].version
  {
    hide After, StoreOk, Serve, Parsed, Text.Blank, Text.TrimSpace, Text.Decimal, Decided, Execute;
    AlwaysOk(lib, events);
    var d := After(lib, events).db;
    RowsAreTied(lib, d);
    var conflict := d.conflicts[id];
    var source := d.proposals[conflict.proposalId];
    var parcel := d.parcels[source.parcelId];
    ApplyServed(lib, d, ApplyRequest(id, rationale), actor, ids, conflict, source, parcel);
    ApplyJudged(lib, d, id, rationale, actor, ids);
    ApplicationDecided(d, conflict, DerivedProposal(lib, conflict, source, parcel, rationale, actor), actor, ids);
    AppliedRow(d, conflict, DerivedProposal(lib, conflict, source, parcel, rationale, actor), actor, ids);
  }

  lemma ApplicationDecided(d: Db, item: Conflict, derived: Proposal, actor: Actor, ids: Ids)
    ensures Decided(d, Commit(ApplySuggestion(item, derived)), actor, ids).Some?
  {
    hide Execute;
  }
}
