/**
 Ordering by a numeric key: the specification of the sort.Slice calls, and the
 sort itself, in place.
 */
module Sorting {

  function Inserted<T>(s: seq<T>, x: T, key: T -> nat): seq<T> {
    if s == [] || key(s[|s| - 1]) <= key(x) then s + [x]
    else Inserted(s[..|s| - 1], x, key) + [s[|s| - 1]]
  }

  function SortedBy<T>(s: seq<T>, key: T -> nat): seq<T> {
    if s == [] then [] else Inserted(SortedBy(s[..|s| - 1], key), s[|s| - 1], key)
  }

  ghost predicate Ordered<T>(s: seq<T>, key: T -> nat) {
    forall i, j :: 0 <= i < j < |s| ==> key(s[i]) <= key(s[j])
  }

  ghost predicate StrictlyOrdered<T>(s: seq<T>, key: T -> nat) {
    forall i, j :: 0 <= i < j < |s| ==> key(s[i]) < key(s[j])
  }

  lemma OrderedSnoc<T>(s: seq<T>, x: T, key: T -> nat)
    requires Ordered(s, key) && forall i :: 0 <= i < |s| ==> key(s[i]) <= key(x)
    ensures Ordered(s + [x], key)
  {
  }

  lemma {:induction false} InsertedMembers<T>(s: seq<T>, x: T, key: T -> nat)
    ensures multiset(Inserted(s, x, key)) == multiset(s) + multiset{x}
  {
    if s != [] && key(x) < key(s[|s| - 1]) {
      InsertedMembers(s[..|s| - 1], x, key);
      assert s == s[..|s| - 1] + [s[|s| - 1]];
    }
  }

  lemma {:induction false} InsertedOrdered<T>(s: seq<T>, x: T, key: T -> nat)
    requires Ordered(s, key)
    ensures Ordered(Inserted(s, x, key), key)
    ensures forall i :: 0 <= i < |Inserted(s, x, key)| ==>
              key(Inserted(s, x, key)[i]) <= key(x) || (s != [] && key(Inserted(s, x, key)[i]) <= key(s[|s| - 1]))
  {
    if s == [] || key(s[|s| - 1]) <= key(x) {
      OrderedSnoc(s, x, key);
    } else {
      var front, last := s[..|s| - 1], s[|s| - 1];
      InsertedOrdered(front, x, key);
      assert front != [] ==> key(front[|front| - 1]) <= key(last);
      OrderedSnoc(Inserted(front, x, key), last, key);
    }
  }

  lemma InsertedProperties<T>(s: seq<T>, x: T, key: T -> nat)
    requires Ordered(s, key)
    ensures Ordered(Inserted(s, x, key), key)
    ensures multiset(Inserted(s, x, key)) == multiset(s) + multiset{x}
  {
    InsertedOrdered(s, x, key);
    InsertedMembers(s, x, key);
  }

  lemma {:induction false} SortedByProperties<T>(s: seq<T>, key: T -> nat)
    ensures Ordered(SortedBy(s, key), key)
    ensures multiset(SortedBy(s, key)) == multiset(s)
  {
    if s != [] {
      hide Inserted, Ordered;
      SortedByProperties(s[..|s| - 1], key);
      InsertedProperties(SortedBy(s[..|s| - 1], key), s[|s| - 1], key);
      assert s == s[..|s| - 1] + [s[|s| - 1]];
    }
  }

  lemma {:induction false} OrderedIsSorted<T>(s: seq<T>, key: T -> nat)
    requires Ordered(s, key)
    ensures SortedBy(s, key) == s
  {
    if s != [] {
      OrderedIsSorted(s[..|s| - 1], key);
      assert s == s[..|s| - 1] + [s[|s| - 1]];
    }
  }

  lemma SameMembers<T>(a: seq<T>, b: seq<T>)
    requires multiset(a) == multiset(b)
    ensures |a| == |b| && forall x :: x in a <==> x in b
  {
    assert |multiset(a)| == |a| && |multiset(b)| == |b|;
    forall x ensures x in a <==> x in b {
      assert x in a <==> x in multiset(a);
      assert x in b <==> x in multiset(b);
    }
  }

  lemma FirstIsLeast<T>(a: seq<T>, b: seq<T>, key: T -> nat)
    requires StrictlyOrdered(a, key) && StrictlyOrdered(b, key) && a != [] && b != []
    requires a[0] in b && b[0] in a
    ensures a[0] == b[0]
  {
  }

  lemma TailMembers<T>(a: seq<T>, key: T -> nat, x: T)
    requires StrictlyOrdered(a, key) && a != []
    ensures x in a[1..] <==> x in a && x != a[0]
  {
    assert a == [a[0]] + a[1..];
  }

  // Only one list holds given members in strictly increasing order of their keys.
  lemma {:induction false} StrictOrderIsUnique<T>(a: seq<T>, b: seq<T>, key: T -> nat)
    requires StrictlyOrdered(a, key) && StrictlyOrdered(b, key)
    requires forall x :: x in a <==> x in b
    ensures a == b
  {
    assert b != [] ==> b[0] in b;
    if a != [] {
      assert a[0] in b;
      assert b[0] in a;
      FirstIsLeast(a, b, key);
      forall x ensures x in a[1..] <==> x in b[1..] {
        TailMembers(a, key, x);
        TailMembers(b, key, x);
      }
      StrictOrderIsUnique(a[1..], b[1..], key);
      assert a == [a[0]] + a[1..] && b == [b[0]] + b[1..];
    }
  }

  ghost predicate DistinctKeys<T>(s: seq<T>, key: T -> nat) {
    forall i, j :: 0 <= i < j < |s| ==> key(s[i]) != key(s[j])
  }

  lemma PresentOnce<T>(s: seq<T>, key: T -> nat, i: nat)
    requires DistinctKeys(s, key) && i < |s|
    ensures multiset(s)[s[i]] == 1
  {
    assert s == s[..i] + [s[i]] + s[i + 1..];
    assert s[i] !in s[..i] && s[i] !in s[i + 1..];
  }

  lemma PresentTwice<T>(s: seq<T>, i: nat, j: nat)
    requires i < j < |s| && s[i] == s[j]
    ensures multiset(s)[s[i]] >= 2
  {
    assert s == s[..j] + [s[j]] + s[j + 1..];
    assert s[..j][i] == s[i];
    assert s[i] in multiset(s[..j]);
  }

  lemma DistinctAndOrderedIsStrict<T>(a: seq<T>, sorted: seq<T>, key: T -> nat)
    requires DistinctKeys(a, key) && Ordered(sorted, key) && multiset(sorted) == multiset(a)
    ensures StrictlyOrdered(sorted, key)
  {
    SameMembers(sorted, a);
    forall i, j | 0 <= i < j < |sorted| ensures key(sorted[i]) < key(sorted[j]) {
      assert sorted[i] in a && sorted[j] in a;
      var p :| 0 <= p < |a| && a[p] == sorted[i];
      var q :| 0 <= q < |a| && a[q] == sorted[j];
      if p == q {
        PresentOnce(a, key, p);
        PresentTwice(sorted, i, j);
      }
    }
  }

  // Sorting forgets the order in which members with distinct keys were listed.
  lemma SortForgetsOrder<T>(a: seq<T>, b: seq<T>, key: T -> nat)
    requires multiset(a) == multiset(b) && DistinctKeys(a, key)
    ensures SortedBy(a, key) == SortedBy(b, key)
    ensures StrictlyOrdered(SortedBy(a, key), key)
  {
    SortedByProperties(a, key);
    SortedByProperties(b, key);
    DistinctAndOrderedIsStrict(a, SortedBy(a, key), key);
    DistinctAndOrderedIsStrict(a, SortedBy(b, key), key);
    SameMembers(SortedBy(a, key), SortedBy(b, key));
    StrictOrderIsUnique(SortedBy(a, key), SortedBy(b, key), key);
  }

  lemma {:induction false} InsertedAt<T>(s: seq<T>, x: T, key: T -> nat, j: nat)
    requires Ordered(s, key) && j <= |s|
    requires j > 0 ==> key(s[j - 1]) <= key(x)
    requires forall i :: j <= i < |s| ==> key(x) < key(s[i])
    ensures Inserted(s, x, key) == s[..j] + [x] + s[j..]
  {
    if j == |s| {
      assert s[..j] == s;
    } else {
      var front := s[..|s| - 1];
      InsertedAt(front, x, key, j);
      assert front[..j] == s[..j] && front[j..] + [s[|s| - 1]] == s[j..];
    }
  }

  // Sorts the array where it is; members with equal keys keep their order.
  method Sort<T>(a: array<T>, key: T -> nat)
    modifies a
    ensures a[..] == SortedBy(old(a[..]), key)
  {
    ghost var was := a[..];
    for i := 0 to a.Length
      invariant a[..i] == SortedBy(was[..i], key)
      invariant a[i..] == was[i..]
    {
      assert was[..i + 1][..i] == was[..i];
      SortedByProperties(was[..i], key);
      InsertNext(a, i, key);
      assert a[i + 1..] == was[i + 1..];
    }
    assert was[..a.Length] == was && a[..a.Length] == a[..];
  }

  // A list with its next member moved down to position j.
  ghost predicate MovedDown<T>(was: seq<T>, now: seq<T>, i: nat, j: nat)
    requires j <= i < |was| == |now|
  {
    && (forall k :: 0 <= k < j ==> now[k] == was[k]) && now[j] == was[i]
    && (forall k :: j < k <= i ==> now[k] == was[k - 1])
    && (forall k :: i < k < |was| ==> now[k] == was[k])
  }

  lemma MovedDownIsInserted<T>(was: seq<T>, now: seq<T>, i: nat, j: nat, key: T -> nat)
    requires j <= i < |was| == |now| && MovedDown(was, now, i, j) && Ordered(was[..i], key)
    requires j > 0 ==> key(was[j - 1]) <= key(was[i])
    requires forall k :: j <= k < i ==> key(was[i]) < key(was[k])
    ensures now[..i + 1] == Inserted(was[..i], was[i], key) && now[i + 1..] == was[i + 1..]
  {
    InsertedAt(was[..i], was[i], key, j);
    hide Inserted, Ordered;
    assert now[..i + 1] == was[..i][..j] + [was[i]] + was[..i][j..];
  }

  method InsertNext<T>(a: array<T>, i: nat, key: T -> nat)
    requires i < a.Length && Ordered(a[..i], key)
    modifies a
    ensures a[..i + 1] == Inserted(old(a[..i]), old(a[i]), key)
    ensures a[i + 1..] == old(a[i + 1..])
  {
    hide Inserted, Ordered;
    ghost var was := a[..];
    assert was[..i] == a[..i];
    var j := i;
    while 0 < j && key(a[j - 1]) > key(a[j])
      invariant 0 <= j <= i
      invariant MovedDown(was, a[..], i, j)
      invariant forall k :: j <= k < i ==> key(was[i]) < key(was[k])
    {
      a[j - 1], a[j] := a[j], a[j - 1];
      j := j - 1;
    }
    MovedDownIsInserted(was, a[..], i, j, key);
    assert a[..i + 1] == a[..][..i + 1] && a[i + 1..] == a[..][i + 1..];
    assert old(a[i + 1..]) == was[i + 1..];
  }
}
