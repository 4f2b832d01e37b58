/**
 The fixed-window request limiter with its lazy sweep. Instants are
 nanoseconds after the zero time, so 0 is the zero time itself.
 */
module RateLimiting {
  import opened Basics

  datatype Visitor = Visitor(count: int, expiresAt: int)

  datatype Limiter = Limiter(limit: int, window: int, visitors: map<string, Visitor>, lastSweep: int)

  datatype Call = Call(key: string, now: int)

  function NewLimiter(limit: int, window: int, now: int): Limiter {
    Limiter(limit, window, map[], now)
  }

  function Swept(l: Limiter, now: int): Limiter {
    if now - l.lastSweep > l.window then
      l.(visitors := map k | k in l.visitors && now <= l.visitors[k].expiresAt :: l.visitors[k], lastSweep := now)
    else
      l
  }

  // The visitor a call is charged to: the stored one, or a fresh window.
  function CurrentVisitor(l: Limiter, key: string, now: int): Visitor {
    var stored := if key in l.visitors then l.visitors[key] else Visitor(0, 0);
    if stored.expiresAt == 0 || now > stored.expiresAt then Visitor(0, now + l.window) else stored
  }

  function Admit(l: Limiter, key: string, now: int): (Limiter, bool) {
    var current := CurrentVisitor(l, key, now);
    if current.count >= l.limit then (l, false)
    else (l.(visitors := l.visitors[key := current.(count := current.count + 1)]), true)
  }

  function Decide(l: Limiter, key: string, now: int): (Limiter, bool) {
    Admit(Swept(l, now), key, now)
  }

  // When the window a call falls into expires.
  function Expiry(l: Limiter, key: string, now: int): int {
    CurrentVisitor(Swept(l, now), key, now).expiresAt
  }

  class RateLimiter {
    const limit: int
    const window: int
    var visitors: map<string, Visitor>
    var lastSweep: int

    ghost function Model(): Limiter
      reads this
    {
      Limiter(limit, window, visitors, lastSweep)
    }

    constructor (limit: int, window: int, now: int)
      ensures Model() == NewLimiter(limit, window, now)
    {
      this.limit, this.window := limit, window;
      visitors, lastSweep := map[], now;
    }

    // The lazy sweep: drops every expired visitor, at most once a window.
    method Sweep(now: int)
      modifies this
      ensures Model() == Swept(old(Model()), now)
    {
      if now - lastSweep > window {
        var rest := visitors.Keys;
        while rest != {}
          invariant rest <= visitors.Keys <= old(visitors).Keys
          invariant lastSweep == old(lastSweep)
          invariant forall k :: k in visitors ==> visitors[k] == old(visitors)[k]
          invariant forall k :: k in old(visitors) && k !in rest ==> (k in visitors <==> now <= old(visitors)[k].expiresAt)
          decreases |rest|
        {
          var k :| k in rest;
          rest := rest - {k};
          if now > visitors[k].expiresAt {
            visitors := visitors - {k};
          }
        }
        assert visitors == Swept(old(Model()), now).visitors;
        lastSweep := now;
      }
    }

    // `clock` is what the real clock shows when the duration is computed.
    method Allow(key: string, now: int, clock: int) returns (allowed: bool, retry: int)
      modifies this
      ensures (Model(), allowed) == Decide(old(Model()), key, now)
      ensures retry == Expiry(old(Model()), key, now) - clock
    {
      Sweep(now);
      var current := if key in visitors then visitors[key] else Visitor(0, 0);
      if current.expiresAt == 0 || now > current.expiresAt {
        current := Visitor(0, now + window);
      }
      if current.count >= limit {
        return false, current.expiresAt - clock;
      }
      current := current.(count := current.count + 1);
      visitors := visitors[key := current];
      return true, current.expiresAt - clock;
    }
  }

  // ---- Runs of calls ----

  ghost predicate Chronological(calls: seq<Call>, start: int) {
    && (forall i :: 0 <= i < |calls| ==> start <= calls[i].now)
    && (forall i, j :: 0 <= i < j < |calls| ==> calls[i].now <= calls[j].now)
  }

  function Decisions(l: Limiter, calls: seq<Call>): seq<bool>
    decreases |calls|
  {
    if calls == [] then []
    else
      var (l', ok) := Decide(l, calls[0].key, calls[0].now);
      [ok] + Decisions(l', calls[1..])
  }

  // A limiter that never deletes an entry.
  function PlainDecisions(l: Limiter, calls: seq<Call>): seq<bool>
    decreases |calls|
  {
    if calls == [] then []
    else
      var (l', ok) := Admit(l, calls[0].key, calls[0].now);
      [ok] + PlainDecisions(l', calls[1..])
  }

  function After(l: Limiter, calls: seq<Call>): Limiter
    decreases |calls|
  {
    if calls == [] then l else After(Decide(l, calls[0].key, calls[0].now).0, calls[1..])
  }

  // Allowed calls for one key at instants in the closed interval [from, to].
  function AllowedWithin(l: Limiter, calls: seq<Call>, key: string, from: int, to: int): nat
    decreases |calls|
  {
    if calls == [] then 0
    else
      var (l', ok) := Decide(l, calls[0].key, calls[0].now);
      (if ok && calls[0].key == key && from <= calls[0].now <= to then 1 else 0)
      + AllowedWithin(l', calls[1..], key, from, to)
  }

  // ---- The sweep changes no decision ----

  // `l` lacks only entries of `plain` that every call from `now` on would restart anyway.
  ghost predicate Agree(l: Limiter, plain: Limiter, now: int) {
    && l.limit == plain.limit && l.window == plain.window
    && (forall k :: k in l.visitors ==> k in plain.visitors && plain.visitors[k] == l.visitors[k])
    && (forall k :: k in plain.visitors && k !in l.visitors ==> plain.visitors[k].expiresAt < now)
  }

  lemma {:induction false} SweepAgrees(l: Limiter, plain: Limiter, calls: seq<Call>, start: int)
    requires Chronological(calls, start) && Agree(l, plain, start)
    ensures Decisions(l, calls) == PlainDecisions(plain, calls)
    decreases |calls|
  {
    if calls != [] {
      var now, key := calls[0].now, calls[0].key;
      assert Agree(Swept(l, now), plain, now);
      assert CurrentVisitor(Swept(l, now), key, now) == CurrentVisitor(plain, key, now);
      SweepAgrees(Decide(l, key, now).0, Admit(plain, key, now).0, calls[1..], now);
    }
  }

  lemma SweepingIsInvisible(limit: int, window: int, start: int, calls: seq<Call>)
    requires Chronological(calls, start)
    ensures Decisions(NewLimiter(limit, window, start), calls) == PlainDecisions(NewLimiter(limit, window, start), calls)
  {
    SweepAgrees(NewLimiter(limit, window, start), NewLimiter(limit, window, start), calls, start);
  }

  // ---- Memory is bounded: nothing retained was opened more than two windows ago ----

  ghost predicate Recent(l: Limiter, now: int) {
    && l.lastSweep <= now <= l.lastSweep + l.window
    && (forall k :: k in l.visitors ==> l.lastSweep <= l.visitors[k].expiresAt)
  }

  lemma {:induction false} StaysRecent(l: Limiter, calls: seq<Call>, start: int)
    requires 0 <= l.window && Recent(l, start) && Chronological(calls, start)
    ensures Recent(After(l, calls), if calls == [] then start else calls[|calls| - 1].now)
    ensures After(l, calls).window == l.window
    decreases |calls|
  {
    if calls != [] {
      StaysRecent(Decide(l, calls[0].key, calls[0].now).0, calls[1..], calls[0].now);
    }
  }

  lemma RetainedEntriesAreRecent(limit: int, window: nat, start: int, calls: seq<Call>, key: string)
    requires Chronological(calls, start) && calls != []
    requires key in After(NewLimiter(limit, window, start), calls).visitors
    ensures var openedAt := After(NewLimiter(limit, window, start), calls).visitors[key].expiresAt - window;
            calls[|calls| - 1].now - 2 * window <= openedAt
  {
    StaysRecent(NewLimiter(limit, window, start), calls, start);
  }

  // ---- The sliding-window bound ----

  ghost predicate Counted(l: Limiter) {
    forall k :: k in l.visitors ==> 1 <= l.visitors[k].count <= l.limit && l.visitors[k].expiresAt != 0
  }

  lemma {:induction false} NoneAfter(l: Limiter, calls: seq<Call>, key: string, from: int, to: int)
    requires forall i :: 0 <= i < |calls| ==> to < calls[i].now
    ensures AllowedWithin(l, calls, key, from, to) == 0
    decreases |calls|
  {
    if calls != [] {
      NoneAfter(Decide(l, calls[0].key, calls[0].now).0, calls[1..], key, from, to);
    }
  }

  // Within one opened window at most the rest of its quota is allowed.
  lemma {:induction false} WindowQuota(l: Limiter, calls: seq<Call>, key: string, from: int, to: int, start: int)
    requires Counted(l) && 0 < start && 0 <= l.window && Chronological(calls, start)
    requires key in l.visitors && to <= l.visitors[key].expiresAt
    ensures AllowedWithin(l, calls, key, from, to) <= l.limit - l.visitors[key].count
    decreases |calls|
  {
    if calls != [] {
      var now := calls[0].now;
      if to < now {
        NoneAfter(l, calls, key, from, to);
      } else {
        WindowQuota(Decide(l, calls[0].key, now).0, calls[1..], key, from, to, now);
      }
    }
  }

  // Calls from `from` on: what is left of the window already open, then one more window.
  lemma {:induction false} TwoWindows(l: Limiter, calls: seq<Call>, key: string, from: int, start: int)
    requires Counted(l) && 0 < start && 0 <= l.window && from <= start && Chronological(calls, start)
    ensures AllowedWithin(l, calls, key, from, from + l.window)
         <= (if key in l.visitors then l.limit - l.visitors[key].count else 0) + Max(l.limit, 0)
    decreases |calls|
  {
    if calls != [] {
      var now := calls[0].now;
      var to := from + l.window;
      if to < now {
        NoneAfter(l, calls, key, from, to);
      } else {
        var (l', ok) := Decide(l, calls[0].key, now);
        if calls[0].key == key && ok && l'.visitors[key].count == 1 {
          WindowQuota(l', calls[1..], key, from, to, now);
        } else {
          TwoWindows(l', calls[1..], key, from, now);
        }
      }
    }
  }

  lemma {:induction false} BeforeInterval(l: Limiter, calls: seq<Call>, key: string, from: int, start: int)
    requires Counted(l) && 0 < start && 0 <= l.window && Chronological(calls, start)
    ensures AllowedWithin(l, calls, key, from, from + l.window) <= Max(0, 2 * l.limit - 1)
    decreases |calls|
  {
    if from <= start {
      TwoWindows(l, calls, key, from, start);
    } else if calls != [] {
      var now := calls[0].now;
      if from <= now {
        TwoWindows(l, calls, key, from, now);
      } else {
        BeforeInterval(Decide(l, calls[0].key, now).0, calls[1..], key, from, now);
      }
    }
  }

  /** Any closed interval as long as the window holds at most 2 * limit - 1
      allowed calls of a key (none when the limit is not positive). */
  lemma SlidingWindowBound(limit: int, window: nat, start: int, calls: seq<Call>, key: string, from: int)
    requires 0 < start && Chronological(calls, start)
    ensures AllowedWithin(NewLimiter(limit, window, start), calls, key, from, from + window) <= Max(0, 2 * limit - 1)
  {
    BeforeInterval(NewLimiter(limit, window, start), calls, key, from, start);
  }

  // ---- The bound is attained ----

  function Repeat(call: Call, n: nat): seq<Call> {
    if n == 0 then [] else [call] + Repeat(call, n - 1)
  }

  function Charged(l: Limiter, key: string, n: nat): Limiter
    requires key in l.visitors
  {
    var v := l.visitors[key];
    l.(visitors := l.visitors[key := v.(count := v.count + n)])
  }

  lemma OneMoreCall(l: Limiter, key: string, now: int, tail: seq<Call>, from: int, to: int)
    requires from <= now <= to && now - l.lastSweep <= l.window
    requires key in l.visitors && now <= l.visitors[key].expiresAt && l.visitors[key].expiresAt != 0
    requires l.visitors[key].count < l.limit
    ensures AllowedWithin(l, [Call(key, now)] + tail, key, from, to) == 1 + AllowedWithin(Charged(l, key, 1), tail, key, from, to)
  {
    var calls := [Call(key, now)] + tail;
    assert calls[1..] == tail;
    assert Decide(l, key, now) == (Charged(l, key, 1), true);
  }

  lemma {:induction false} RepeatedCalls(l: Limiter, key: string, now: int, n: nat, rest: seq<Call>, from: int, to: int)
    requires from <= now <= to && now - l.lastSweep <= l.window
    requires key in l.visitors && now <= l.visitors[key].expiresAt && l.visitors[key].expiresAt != 0
    requires l.visitors[key].count + n <= l.limit
    ensures AllowedWithin(l, Repeat(Call(key, now), n) + rest, key, from, to)
         == n + AllowedWithin(Charged(l, key, n), rest, key, from, to)
    decreases n
  {
    hide AllowedWithin;
    if n == 0 {
      assert Repeat(Call(key, now), n) + rest == rest;
      assert Charged(l, key, n).visitors == l.visitors;
    } else {
      var l', tail := Charged(l, key, 1), Repeat(Call(key, now), n - 1) + rest;
      assert Repeat(Call(key, now), n) + rest == [Call(key, now)] + tail;
      OneMoreCall(l, key, now, tail, from, to);
      RepeatedCalls(l', key, now, n - 1, rest, from, to);
      assert Charged(l', key, n - 1).visitors == Charged(l, key, n).visitors;
    }
  }

  // One early call, the rest of its quota at the last live instant, a whole new quota right after.
  function Burst(key: string, limit: nat, window: nat): seq<Call>
    requires 0 < limit
  {
    [Call(key, 1)] + (Repeat(Call(key, window + 1), limit - 1) + ([Call(key, window + 2)] + Repeat(Call(key, window + 2), limit - 1)))
  }

  lemma AllowedStep(l: Limiter, call: Call, rest: seq<Call>, key: string, from: int, to: int)
    ensures var (l', ok) := Decide(l, call.key, call.now);
            AllowedWithin(l, [call] + rest, key, from, to)
            == (if ok && call.key == key && from <= call.now <= to then 1 else 0) + AllowedWithin(l', rest, key, from, to)
  {
    hide Decide;
    assert ([call] + rest)[1..] == rest;
  }

  lemma FirstCallOpensAWindow(key: string, limit: nat, window: nat)
    requires 0 < limit && 0 < window
    ensures Decide(NewLimiter(limit, window, 1), key, 1) == (Limiter(limit, window, map[key := Visitor(1, window + 1)], 1), true)
  {
  }

  lemma NextWindowOpens(key: string, limit: nat, window: nat)
    requires 0 < limit && 0 < window
    ensures Decide(Limiter(limit, window, map[key := Visitor(limit, window + 1)], 1), key, window + 2)
         == (Limiter(limit, window, map[key := Visitor(1, 2 * window + 2)], window + 2), true)
  {
    var l := Limiter(limit, window, map[key := Visitor(limit, window + 1)], 1);
    assert Swept(l, window + 2).visitors == map[];
  }

  // The quota used up, one visitor only.
  lemma ChargedToTheLimit(l: Limiter, key: string, n: nat, expiresAt: int)
    requires l.visitors == map[key := Visitor(1, expiresAt)]
    ensures Charged(l, key, n) == l.(visitors := map[key := Visitor(1 + n, expiresAt)])
  {
  }

  lemma SlidingWindowBoundIsTight(key: string, limit: nat, window: nat)
    requires 0 < limit && 0 < window
    ensures AllowedWithin(NewLimiter(limit, window, 1), Burst(key, limit, window), key, window + 1, 2 * window + 1) == 2 * limit - 1
  {
    hide AllowedWithin, Decide, Charged, Repeat;
    var from, to := window + 1, 2 * window + 1;
    var late := Repeat(Call(key, window + 2), limit - 1);
    var rest := [Call(key, window + 2)] + late;
    var l1 := Limiter(limit, window, map[key := Visitor(1, window + 1)], 1);
    var l2 := Limiter(limit, window, map[key := Visitor(limit, window + 1)], 1);
    var l3 := Limiter(limit, window, map[key := Visitor(1, 2 * window + 2)], window + 2);
    FirstCallOpensAWindow(key, limit, window);
    AllowedStep(NewLimiter(limit, window, 1), Call(key, 1), Repeat(Call(key, window + 1), limit - 1) + rest, key, from, to);
    RepeatedCalls(l1, key, window + 1, limit - 1, rest, from, to);
    ChargedToTheLimit(l1, key, limit - 1, window + 1);
    NextWindowOpens(key, limit, window);
    AllowedStep(l2, Call(key, window + 2), late, key, from, to);
    RepeatedCalls(l3, key, window + 2, limit - 1, [], from, to);
    assert late + [] == late;
    NothingAllowed(Charged(l3, key, limit - 1), key, from, to);
  }

  lemma NothingAllowed(l: Limiter, key: string, from: int, to: int)
    ensures AllowedWithin(l, [], key, from, to) == 0
  {
  }

  // ---- The retry duration ----

  /** A refused caller is told the time left until its window expires: from then
      on, and not before, its next call is allowed. */
  lemma RetryTellsWhen(l: Limiter, key: string, now: int, later: int)
    requires 0 < l.limit && 0 <= l.window && now <= later && !Decide(l, key, now).1
    ensures Decide(Decide(l, key, now).0, key, later).1 <==> later > Expiry(l, key, now)
  {
  }
}
