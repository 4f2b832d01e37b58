/**
 Detections that lost the race for their key, in any interleaving: they write
 nothing and end with what the winner's run answers.
 */
module LostDetections {
  import opened Basics
  import Text
  import opened Records
  import opened Transactions
  import opened Protocol
  import opened Growth
  import opened Invariants
  import opened Interleaving
  import opened Idempotency
  import opened ExactlyOnce

  // Where a detection can be from its failed commit to its answer.
  predicate Losing(stage: Stage) {
    || stage.Commit? || stage.FindRunAgain? || stage.ReplayRun?
    || (stage.Finished? && (stage.reply.ConflictsReply? || stage.reply == Failure(StateConflict)))
  }

  // The key of this detection has a run, and it is not its own: it has not finished.
  ghost predicate HasLost(s: System, who: nat) {
    && DetectionBy(s, who) && RunKeyTaken(s.db, s.clients[who].actor.id, Text.TrimSpace(s.clients[who].request.key))
    && (s.clients[who].stage.Commit? || s.clients[who].stage.FindRunAgain?)
  }

  ghost predicate StillLosing(s: System, who: nat) {
    && DetectionBy(s, who) && RunKeyTaken(s.db, s.clients[who].actor.id, Text.TrimSpace(s.clients[who].request.key))
    && Losing(s.clients[who].stage)
  }

  lemma TakenKeysStayTaken(d: Db, d': Db, actorId: Id, key: string)
    requires Later(d, d') && RunKeyTaken(d, actorId, key)
    ensures RunKeyTaken(d', actorId, key)
  {
    var k :| k in d.runs && d.runs[k].actorId == actorId && d.runs[k].key == key;
    assert k in d'.runs && d'.runs[k] == d.runs[k];
  }

  /** Once its key is taken, the second look-up of a detection whose commit failed
      finds a run: it replays it, or refuses the reuse of the key. */
  lemma SecondLookUpFindsTheWinner(lib: Library, events: seq<Event>, who: nat)
    requires HasLost(After(lib, events), who) && After(lib, events).clients[who].stage.FindRunAgain?
    ensures var s := After(lib, events); var next := Reading(lib, s.db, s.clients[who]);
            next.ReplayRun? || next == Fail(StateConflict)
  {
    hide After, StoreOk, RunsOk, RunOf, RunKeyTaken, WantedHash;
    AlwaysOk(lib, events);
    DetectionsAlwaysOk(lib, events);
    var s := After(lib, events);
    var c := s.clients[who];
    OpenStore(lib, s.db);
    assert DetectionOk(lib, s.db, c.request, c.actor, c.stage);
    RunOfFinds(s.db, c.actor.id, Text.TrimSpace(c.request.key));
  }

  lemma SearchKey(lib: Library, d: Db, c: Client)
    requires c.request.DetectRequest? && c.stage.FindRunAgain? && DetectionOk(lib, d, c.request, c.actor, c.stage)
    ensures c.stage.key == Text.TrimSpace(c.request.key)
  {
    hide WantedHash;
  }

  lemma ReplayedRunIsStored(lib: Library, d: Db, c: Client)
    requires c.request.DetectRequest? && c.stage.ReplayRun? && DetectionOk(lib, d, c.request, c.actor, c.stage)
    ensures Holds(d, c.stage.run)
  {
    hide WantedHash;
  }

  lemma LosersSearch(lib: Library, d: Db, c: Client)
    requires RunsOk(d) && c.stage.FindRunAgain? && RunKeyTaken(d, c.actor.id, c.stage.key)
    ensures Losing(Reading(lib, d, c))
  {
    hide RunsOk, RunOf, RunKeyTaken, Holds;
    RunOfFinds(d, c.actor.id, c.stage.key);
  }

  lemma LosersReplay(lib: Library, d: Db, c: Client)
    requires ConflictsOk(d) && RunsOk(d) && c.stage.ReplayRun? && Holds(d, c.stage.run)
    ensures Losing(Reading(lib, d, c))
  {
    hide ConflictsOk, RunsOk, Replayed, IdsOf;
    ReplayFindsAll(d, c.stage.run);
  }

  lemma LosersLookUp(lib: Library, d: Db, c: Client)
    requires StoreOk(lib, d) && c.request.DetectRequest? && !c.stage.Commit? && Losing(c.stage)
    requires DetectionOk(lib, d, c.request, c.actor, c.stage) && RunKeyTaken(d, c.actor.id, Text.TrimSpace(c.request.key))
    ensures Losing(Reading(lib, d, c))
  {
    hide StoreOk, ConflictsOk, RunsOk, DetectionOk, RunKeyTaken, Holds;
    OpenStore(lib, d);
    if c.stage.FindRunAgain? {
      SearchKey(lib, d, c);
      LosersSearch(lib, d, c);
    } else if c.stage.ReplayRun? {
      ReplayedRunIsStored(lib, d, c);
      LosersReplay(lib, d, c);
    }
  }

  lemma LosersStep(lib: Library, d: Db, c: Client, ids: Ids)
    requires StoreOk(lib, d) && c.request.DetectRequest? && Losing(c.stage)
    requires DetectionOk(lib, d, c.request, c.actor, c.stage) && RunKeyTaken(d, c.actor.id, Text.TrimSpace(c.request.key))
    ensures var (d', c') := Step(lib, d, c, ids); d' == d && Losing(c'.stage) && c'.request == c.request && c'.actor == c.actor
  {
    hide StoreOk, DetectionOk, RunKeyTaken, WantedHash, Execute, Reading;
    if c.stage.Commit? {
      PendingRun(lib, d, c);
      TakenKeyFails(d, c.stage.tx, c.actor, ids);
    } else {
      LosersLookUp(lib, d, c);
    }
  }

  lemma {:induction false} LosersKeepLosing(lib: Library, events: seq<Event>, n: nat, who: nat)
    requires n <= |events| && HasLost(After(lib, events[..n]), who)
    ensures StillLosing(After(lib, events), who)
    ensures After(lib, events).clients[who].request == After(lib, events[..n]).clients[who].request
    decreases |events|
  {
    hide StoreOk, DetectionOk, RunKeyTaken, Step;
    if n == |events| {
      assert events[..n] == events;
    } else {
      var front, event := events[..|events| - 1], events[|events| - 1];
      assert front[..n] == events[..n];
      LosersKeepLosing(lib, front, n, who);
      var s := After(lib, front);
      var c := s.clients[who];
      AlwaysOk(lib, front);
      DetectionsAlwaysOk(lib, front);
      assert DetectionOk(lib, s.db, c.request, c.actor, c.stage);
      EventIsOk(lib, s, event);
      TakenKeysStayTaken(s.db, After(lib, events).db, c.actor.id, Text.TrimSpace(c.request.key));
      if event.Act? && event.who == who && Busy(s, who) {
        LosersStep(lib, s.db, c, event.ids);
      }
    }
  }

  /** However its remaining look-ups are interleaved with other requests, a
      detection whose key was taken before it committed never ends with an
      internal error: when it is answered, the run stored for its key answers. */
  lemma LosersAreAnsweredByTheWinner(lib: Library, events: seq<Event>, n: nat, who: nat)
    requires n <= |events| && HasLost(After(lib, events[..n]), who)
    ensures var s := After(lib, events); who in s.clients && var c := s.clients[who];
            && c.request.DetectRequest? && Losing(c.stage)
            && (c.stage.Finished? ==>
                  c.request.proposalId in s.db.proposals
                  && Answered(s.db, c.actor, c.request, WantedHash(lib, s.db, c.request), c.stage.reply))
  {
    hide After, RunKeyTaken, WantedHash;
    LosersKeepLosing(lib, events, n, who);
    DetectionsAlwaysOk(lib, events);
    var s := After(lib, events);
    var c := s.clients[who];
    assert DetectionOk(lib, s.db, c.request, c.actor, c.stage);
    if c.stage.Finished? {
      var wanted := WantedHash(lib, s.db, c.request);
      if c.stage.reply.ConflictsReply? {
        var run :| Holds(s.db, run) && RunFor(run, c.actor, c.request) && run.requestHash == wanted
          && run.resultIds == IdsOf(c.stage.reply.conflicts);
        assert AnsweredBy(run, wanted, c.stage.reply);
      } else {
        var run :| Holds(s.db, run) && RunFor(run, c.actor, c.request) && run.requestHash != wanted;
        assert AnsweredBy(run, wanted, c.stage.reply);
      }
    }
  }

  /** ... and from then on none of its steps writes anything. */
  lemma LosersWriteNothing(lib: Library, events: seq<Event>, n: nat, who: nat, ids: Ids)
    requires n <= |events| && HasLost(After(lib, events[..n]), who)
    ensures Apply(lib, After(lib, events), Act(who, ids)).db == After(lib, events).db
  {
    hide After, StoreOk, DetectionOk, RunKeyTaken, Losing, Step;
    LosersKeepLosing(lib, events, n, who);
    AlwaysOk(lib, events);
    DetectionsAlwaysOk(lib, events);
    var s := After(lib, events);
    assert DetectionOk(lib, s.db, s.clients[who].request, s.clients[who].actor, s.clients[who].stage);
    LosersStep(lib, s.db, s.clients[who], ids);
  }
}
