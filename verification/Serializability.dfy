/**
 Whole runs against whole sequences of requests: a run whose commits all relied
 on current rows leaves the store its committed requests leave one by one.
 */
module Serializability {
  import opened Basics
  import opened Records
  import opened Transactions
  import opened Protocol
  import opened Invariants
  import opened Interleaving
  import opened Refinement
  import opened ExactlyOnce
  import opened DetectionInputs
  import opened Calls

  ghost predicate CommitsNow(s: System, event: Event) {
    && event.Act? && event.who in s.clients && s.clients[event.who].stage.Commit?
    && Execute(s.db, s.clients[event.who].stage.tx, s.clients[event.who].actor, event.ids).Ok?
  }

  // The requests that committed, in the order in which they did.
  ghost function CommittedCalls(lib: Library, events: seq<Event>): seq<Call> {
    if events == [] then []
    else
      var front, event := events[..|events| - 1], events[|events| - 1];
      var s := After(lib, front);
      CommittedCalls(lib, front)
      + (if CommitsNow(s, event) then [Call(s.clients[event.who].request, s.clients[event.who].actor, event.ids)] else [])
  }

  // The rows a commit relied on without guarding them are as they were read.
  ghost predicate ReliesOnCurrentRows(lib: Library, events: seq<Event>, who: nat)
    requires who in After(lib, events).clients && After(lib, events).clients[who].stage.Commit?
  {
    var s := After(lib, events);
    var c := s.clients[who];
    if c.request.DetectRequest? then exists r :: ReadsOf(lib, events, c, r) && TextsAreCurrent(s.db, c.request, r)
    else ReadsAreCurrent(s.db, c.stage.tx)
  }

  ghost predicate EveryCommitIsCurrent(lib: Library, events: seq<Event>) {
    forall n :: 0 <= n < |events| && CommitsNow(After(lib, events[..n]), events[n]) ==>
      ReliesOnCurrentRows(lib, events[..n], events[n].who)
  }

  lemma OneCommitServes(lib: Library, events: seq<Event>, who: nat, ids: Ids)
    requires CommitsNow(After(lib, events), Act(who, ids)) && ReliesOnCurrentRows(lib, events, who)
    ensures var s := After(lib, events); var c := s.clients[who];
            Serve(lib, s.db, c.request, c.actor, ids).0 == Apply(lib, s, Act(who, ids)).db
  {
    hide After, Serve, Execute, ReadsAreCurrent, TextsAreCurrent, ReadsOf, FromRequest, RecordedNow;
    var s := After(lib, events);
    var c := s.clients[who];
    if c.request.DetectRequest? {
      var r :| ReadsOf(lib, events, c, r) && TextsAreCurrent(s.db, c.request, r);
      CurrentDetection(lib, events, who, r);
      WinnerRecordsTheSame(lib, events, who, ids);
    } else {
      AlwaysFromRequests(lib, events);
      assert FromRequest(lib, s.db, c);
      CommitsOfDetections(lib, s.db, c);
      EveryCommitIsAtomic(lib, events, who, ids);
    }
  }

  lemma OnlyCommitsChangeTheStore(lib: Library, s: System, event: Event)
    requires !CommitsNow(s, event)
    ensures Apply(lib, s, event).db == s.db
  {
    hide Execute, Reading;
  }

  /** If every commit of a run relied on current rows, the run has left the store
      exactly as its committed requests leave it when served one after another,
      in the order of their commits. */
  lemma {:induction false} RunsAreSerializable(lib: Library, events: seq<Event>)
    requires EveryCommitIsCurrent(lib, events)
    ensures After(lib, events).db == AfterCalls(lib, CommittedCalls(lib, events))
  {
    if events != [] {
      hide Apply, Serve, CommitsNow, ReliesOnCurrentRows;
      var front, event := events[..|events| - 1], events[|events| - 1];
      forall n | 0 <= n < |front| && CommitsNow(After(lib, front[..n]), front[n]) ensures ReliesOnCurrentRows(lib, front[..n], front[n].who) {
        assert front[..n] == events[..n] && front[n] == events[n];
      }
      RunsAreSerializable(lib, front);
      var s, calls := After(lib, front), CommittedCalls(lib, front);
      if CommitsNow(s, event) {
        CommittingClient(s, event);
        OneCommitServes(lib, front, event.who, event.ids);
        var call := Call(s.clients[event.who].request, s.clients[event.who].actor, event.ids);
        assert (calls + [call])[..|calls|] == calls;
      } else {
        OnlyCommitsChangeTheStore(lib, s, event);
        assert calls + [] == calls;
      }
    }
  }

  lemma CommittingClient(s: System, event: Event)
    requires CommitsNow(s, event)
    ensures event.Act? && event.who in s.clients && s.clients[event.who].stage.Commit?
  {
  }
}
