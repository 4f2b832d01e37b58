/**
 Two requests that both look before either commits, and what the second commit
 then finds.
 */
module Races {
  import opened Records
  import opened Transactions
  import opened Protocol
  import opened Calls

  // Both arrive, the first looks `na` times, the second `nb` times.
  function BothLook(a: nat, qa: Call, na: nat, b: nat, qb: Call, nb: nat): seq<Event> {
    [Arrive(a, qa.request, qa.actor), Arrive(b, qb.request, qb.actor)] + (Acts(a, qa.ids, na) + Acts(b, qb.ids, nb))
  }

  function NewClient(q: Call): Client {
    Client(q.request, q.actor, Start)
  }

  lemma BothHaveLooked(lib: Library, s: System, a: nat, qa: Call, na: nat, b: nat, qb: Call, nb: nat, sa: Stage, sb: Stage)
    requires a != b && a !in s.clients && b !in s.clients
    requires LooksTo(lib, s.db, NewClient(qa), na, sa) && LooksTo(lib, s.db, NewClient(qb), nb, sb)
    ensures Played(lib, s, BothLook(a, qa, na, b, qb, nb))
         == s.(clients := s.clients[a := NewClient(qa).(stage := sa)][b := NewClient(qb).(stage := sb)])
  {
    hide LooksTo;
    var arrivals, acts := [Arrive(a, qa.request, qa.actor), Arrive(b, qb.request, qb.actor)], Acts(a, qa.ids, na) + Acts(b, qb.ids, nb);
    var s2 := s.(clients := s.clients[a := NewClient(qa)][b := NewClient(qb)]);
    assert Played(lib, s, arrivals) == s2 by {
      var s1 := s.(clients := s.clients[a := NewClient(qa)]);
      assert arrivals[1..] == [arrivals[1]] && arrivals[1..][1..] == [];
      assert Apply(lib, s, arrivals[0]) == s1 && Apply(lib, s1, arrivals[1]) == s2;
      assert Played(lib, s1, arrivals[1..]) == s2;
    }
    hide Played, Apply;
    PlayedOn(lib, s, arrivals, acts);
    PlayedOn(lib, s2, Acts(a, qa.ids, na), Acts(b, qb.ids, nb));
    LookingAhead(lib, s2, a, qa.ids, na, sa);
    var s3 := s2.(clients := s2.clients[a := NewClient(qa).(stage := sa)]);
    LookingAhead(lib, s3, b, qb.ids, nb, sb);
    assert s3.clients[b := NewClient(qb).(stage := sb)] == s.clients[a := NewClient(qa).(stage := sa)][b := NewClient(qb).(stage := sb)];
  }

  // The second to have looked commits first.
  function Race(a: nat, qa: Call, na: nat, b: nat, qb: Call, nb: nat): seq<Event> {
    BothLook(a, qa, na, b, qb, nb) + [Act(b, qb.ids), Act(a, qa.ids)]
  }

  lemma RaceEnds(lib: Library, events: seq<Event>, a: nat, qa: Call, na: nat, b: nat, qb: Call, nb: nat, ta: Tx, tb: Tx)
    requires a != b && a !in After(lib, events).clients && b !in After(lib, events).clients
    requires LooksTo(lib, After(lib, events).db, NewClient(qa), na, Commit(ta)) && LooksTo(lib, After(lib, events).db, NewClient(qb), nb, Commit(tb))
    ensures var s := After(lib, events);
            var (d1, b1) := Step(lib, s.db, NewClient(qb).(stage := Commit(tb)), qb.ids);
            var (d2, a2) := Step(lib, d1, NewClient(qa).(stage := Commit(ta)), qa.ids);
            After(lib, events + Race(a, qa, na, b, qb, nb)) == System(d2, s.clients[a := a2][b := b1])
  {
    var s, looks := After(lib, events), BothLook(a, qa, na, b, qb, nb);
    hide After, LooksTo, Step;
    BothHaveLooked(lib, s, a, qa, na, b, qb, nb, Commit(ta), Commit(tb));
    AfterMore(lib, events, looks);
    var s4 := After(lib, events + looks);
    AfterMore(lib, events + looks, [Act(b, qb.ids), Act(a, qa.ids)]);
    assert events + Race(a, qa, na, b, qb, nb) == (events + looks) + [Act(b, qb.ids), Act(a, qa.ids)];
    var s5 := Apply(lib, s4, Act(b, qb.ids));
    assert s5.clients[a] == s4.clients[a];
    var s6 := Apply(lib, s5, Act(a, qa.ids));
    var last := [Act(b, qb.ids), Act(a, qa.ids)];
    assert last[1..] == [Act(a, qa.ids)] && last[1..][1..] == [];
    assert Played(lib, s5, last[1..]) == s6;
    assert Played(lib, s4, last) == s6;
    var (d1, b1) := Step(lib, s.db, NewClient(qb).(stage := Commit(tb)), qb.ids);
    var (d2, a2) := Step(lib, d1, NewClient(qa).(stage := Commit(ta)), qa.ids);
    assert s6.clients == s.clients[a := a2][b := b1];
  }
}
