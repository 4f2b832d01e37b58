/**
 Requests served one after another, and how they appear among the runs of the
 whole system: one client at a time, from its arrival to its answer.
 */
module Calls {
  import opened Basics
  import opened Records
  import opened Transactions
  import opened Protocol

  // ---- The events that follow, from any state ----

  function Played(lib: Library, s: System, events: seq<Event>): System
    decreases |events|
  {
    if events == [] then s else Played(lib, Apply(lib, s, events[0]), events[1..])
  }

  lemma {:induction false} AfterMore(lib: Library, events: seq<Event>, more: seq<Event>)
    ensures After(lib, events + more) == Played(lib, After(lib, events), more)
    decreases |more|
  {
    hide Apply;
    if more == [] {
      assert events + more == events;
    } else {
      assert (events + [more[0]])[..|events|] == events;
      assert events + more == (events + [more[0]]) + more[1..];
      AfterMore(lib, events + [more[0]], more[1..]);
    }
  }

  lemma {:induction false} PlayedOn(lib: Library, s: System, first: seq<Event>, more: seq<Event>)
    ensures Played(lib, s, first + more) == Played(lib, Played(lib, s, first), more)
    decreases |first|
  {
    hide Apply;
    if first == [] {
      assert first + more == more;
    } else {
      assert (first + more)[1..] == first[1..] + more;
      PlayedOn(lib, Apply(lib, s, first[0]), first[1..], more);
    }
  }

  // ---- One client acting, nobody in between ----

  function Acts(who: nat, ids: Ids, n: nat): seq<Event> {
    seq(n, i => Act(who, ids))
  }

  function StepsToEnd(lib: Library, d: Db, c: Client, ids: Ids): nat
    decreases Remaining(c)
  {
    if c.stage.Finished? then 0
    else
      StepsRunOut(lib, d, c, ids);
      var (d', c') := Step(lib, d, c, ids);
      1 + StepsToEnd(lib, d', c', ids)
  }

  lemma {:induction false} ActingAlone(lib: Library, s: System, who: nat, ids: Ids)
    requires who in s.clients
    ensures var end := RunAlone(lib, s.db, s.clients[who], ids);
            Played(lib, s, Acts(who, ids, StepsToEnd(lib, s.db, s.clients[who], ids))) == System(end.0, s.clients[who := end.1])
    decreases Remaining(s.clients[who])
  {
    hide Step, Remaining;
    var c := s.clients[who];
    var n := StepsToEnd(lib, s.db, c, ids);
    if c.stage.Finished? {
      assert s.clients[who := c] == s.clients;
    } else {
      StepsRunOut(lib, s.db, c, ids);
      var (d', c') := Step(lib, s.db, c, ids);
      var s' := System(d', s.clients[who := c']);
      assert Apply(lib, s, Act(who, ids)) == s';
      assert Acts(who, ids, n)[1..] == Acts(who, ids, n - 1);
      ActingAlone(lib, s', who, ids);
      assert s'.clients[who := RunAlone(lib, d', c', ids).1] == s.clients[who := RunAlone(lib, d', c', ids).1];
    }
  }

  // `n` look-ups of a store that stands still bring the client to this stage.
  ghost predicate LooksTo(lib: Library, d: Db, c: Client, n: nat, stage: Stage)
    decreases n
  {
    if n == 0 then c.stage == stage
    else !c.stage.Commit? && !c.stage.Finished? && LooksTo(lib, d, c.(stage := Reading(lib, d, c)), n - 1, stage)
  }

  lemma NoLook(lib: Library, d: Db, c: Client)
    ensures LooksTo(lib, d, c, 0, c.stage)
  {
  }

  lemma OneLook(lib: Library, d: Db, c: Client, next: Stage, n: nat, stage: Stage)
    requires !c.stage.Commit? && !c.stage.Finished? && Reading(lib, d, c) == next && LooksTo(lib, d, c.(stage := next), n, stage)
    ensures LooksTo(lib, d, c, n + 1, stage)
  {
    hide Reading;
  }

  lemma {:induction false} LookingAhead(lib: Library, s: System, who: nat, ids: Ids, n: nat, stage: Stage)
    requires who in s.clients && LooksTo(lib, s.db, s.clients[who], n, stage)
    ensures Played(lib, s, Acts(who, ids, n)) == s.(clients := s.clients[who := s.clients[who].(stage := stage)])
    decreases n
  {
    hide Reading;
    var c := s.clients[who];
    if n == 0 {
      assert s.clients[who := c] == s.clients;
    } else {
      var c' := c.(stage := Reading(lib, s.db, c));
      var s' := s.(clients := s.clients[who := c']);
      assert Apply(lib, s, Act(who, ids)) == s';
      assert Acts(who, ids, n)[1..] == Acts(who, ids, n - 1);
      LookingAhead(lib, s', who, ids, n - 1, stage);
      assert s'.clients[who := c'.(stage := stage)] == s.clients[who := c.(stage := stage)];
    }
  }

  // ---- Calls ----

  datatype Call = Call(request: Request, actor: Actor, ids: Ids)

  function AfterCalls(lib: Library, calls: seq<Call>): Db {
    if calls == [] then EMPTY_DB
    else
      var last := calls[|calls| - 1];
      Serve(lib, AfterCalls(lib, calls[..|calls| - 1]), last.request, last.actor, last.ids).0
  }

  // The same calls as events: call i is client i.
  function Events(lib: Library, calls: seq<Call>): seq<Event> {
    if calls == [] then []
    else
      var n, last := |calls| - 1, calls[|calls| - 1];
      Events(lib, calls[..n]) + [Arrive(n, last.request, last.actor)]
      + Acts(n, last.ids, StepsToEnd(lib, AfterCalls(lib, calls[..n]), Client(last.request, last.actor, Start), last.ids))
  }

  /** Requests served one after another are a run of the system, so everything
      proved of runs holds of them; and room is left for further clients. */
  lemma {:induction false} CallsAreRuns(lib: Library, calls: seq<Call>)
    ensures After(lib, Events(lib, calls)).db == AfterCalls(lib, calls)
    ensures forall who :: who in After(lib, Events(lib, calls)).clients ==> who < |calls|
  {
    hide RunAlone, StepsToEnd, Step;
    if calls != [] {
      var n, last := |calls| - 1, calls[|calls| - 1];
      CallsAreRuns(lib, calls[..n]);
      var before := Events(lib, calls[..n]);
      var s, c := After(lib, before), Client(last.request, last.actor, Start);
      var arrive, acts := [Arrive(n, last.request, last.actor)], Acts(n, last.ids, StepsToEnd(lib, s.db, c, last.ids));
      AfterMore(lib, before + arrive, acts);
      assert (before + arrive)[..|before|] == before;
      var s' := After(lib, before + arrive);
      assert s' == s.(clients := s.clients[n := c]);
      hide After, Apply, Played;
      ActingAlone(lib, s', n, last.ids);
    }
  }
}
