/**
 Participant ID lists: the server's in-place sort and compaction, and the
 client's normalisation of the list it receives.
 */
module ParcelIds {
  import opened Basics
  import opened Sorting

  function Self(n: nat): nat { n }

  ghost predicate Increasing(s: seq<nat>) {
    forall i, j :: 0 <= i < j < |s| ==> s[i] < s[j]
  }

  // The members of a set of numbers, least first.
  function Ascending(ids: set<nat>): (r: seq<nat>)
    ensures Increasing(r)
    ensures forall x :: x in r <==> x in ids
  {
    if ids == {} then []
    else
      HasLeast(ids);
      var least :| IsLeast(ids, least);
      [least] + Ascending(ids - {least})
  }

  predicate IsLeast(ids: set<nat>, x: nat) {
    x in ids && forall y :: y in ids ==> x <= y
  }

  lemma {:induction false} HasLeast(ids: set<nat>)
    requires ids != {}
    ensures exists least :: IsLeast(ids, least)
  {
    var some :| some in ids;
    var others := ids - {some};
    if others == {} {
      assert ids == {some} && IsLeast(ids, some);
    } else {
      HasLeast(others);
      var least :| IsLeast(others, least);
      assert ids == others + {some};
      assert IsLeast(ids, if some < least then some else least);
    }
  }

  function UniqueSorted(ids: seq<nat>): seq<nat> {
    Ascending(set x | x in ids)
  }

  lemma IncreasingIsUnique(a: seq<nat>, b: seq<nat>)
    requires Increasing(a) && Increasing(b)
    requires forall x :: x in a <==> x in b
    ensures a == b
  {
    StrictOrderIsUnique(a, b, Self);
  }

  // The compaction of a sorted list: a member is kept unless it repeats the last one kept.
  function Compacted(s: seq<nat>): seq<nat> {
    if s == [] then []
    else
      var kept, x := Compacted(s[..|s| - 1]), s[|s| - 1];
      if kept == [] || kept[|kept| - 1] != x then kept + [x] else kept
  }

  ghost predicate NonDecreasing(s: seq<nat>) {
    forall i, j :: 0 <= i < j < |s| ==> s[i] <= s[j]
  }

  lemma CompactedStep(kept: seq<nat>, front: seq<nat>, x: nat)
    requires Increasing(kept) && (forall y :: y in kept <==> y in front)
    requires (front == [] <==> kept == []) && (kept != [] ==> kept[|kept| - 1] <= x)
    ensures var r := if kept == [] || kept[|kept| - 1] != x then kept + [x] else kept;
            Increasing(r) && (forall y :: y in r <==> y in front + [x]) && r != [] && r[|r| - 1] == x
  {
    assert kept != [] ==> kept[|kept| - 1] in kept;
    forall y ensures y in kept + [x] <==> y in front + [x] {
      assert y in kept + [x] <==> y in kept || y == x;
      assert y in front + [x] <==> y in front || y == x;
    }
  }

  lemma CompactedOfNone(s: seq<nat>)
    requires s != [] ==> Compacted(s) != []
    ensures s == [] <==> Compacted(s) == []
  {
  }

  lemma {:induction false} CompactedProperties(s: seq<nat>)
    requires NonDecreasing(s)
    ensures Increasing(Compacted(s))
    ensures forall x :: x in Compacted(s) <==> x in s
    ensures s != [] ==> Compacted(s) != [] && Compacted(s)[|Compacted(s)| - 1] == s[|s| - 1]
  {
    if s != [] {
      var front, x := s[..|s| - 1], s[|s| - 1];
      CompactedProperties(front);
      assert s == front + [x];
      assert front != [] ==> front[|front| - 1] <= x;
      CompactedOfNone(front);
      hide Increasing, NonDecreasing;
      CompactedStep(Compacted(front), front, x);
    }
  }

  /** Sorts the array and then compacts it into its own front: the list kept so
      far grows over positions the loop has already read. */
  method UniqueSortedIDs(ids: array<nat>) returns (kept: nat)
    modifies ids
    ensures kept <= ids.Length
    ensures ids[..kept] == UniqueSorted(old(ids[..]))
  {
    Sort(ids, Self);
    SortedByProperties(old(ids[..]), Self);
    SameMembers(ids[..], old(ids[..]));
    assert forall i, j :: 0 <= i < j < |ids[..]| ==> Self(ids[..][i]) <= Self(ids[..][j]);
    CompactedProperties(ids[..]);
    IncreasingIsUnique(Compacted(ids[..]), UniqueSorted(old(ids[..])));
    kept := Compact(ids);
  }

  method Compact(ids: array<nat>) returns (kept: nat)
    modifies ids
    ensures kept <= ids.Length
    ensures ids[..kept] == Compacted(old(ids[..]))
  {
    ghost var sorted := ids[..];
    kept := 0;
    for i := 0 to ids.Length
      invariant kept <= i && kept == |Compacted(sorted[..i])|
      invariant forall k :: i <= k < ids.Length ==> ids[k] == sorted[k]
      invariant forall k :: 0 <= k < kept ==> ids[k] == Compacted(sorted[..i])[k]
    {
      assert sorted[..i + 1][..i] == sorted[..i];
      var id := ids[i];
      if kept == 0 || ids[kept - 1] != id {
        ids[kept] := id;
        kept := kept + 1;
      }
    }
    assert sorted[..|sorted|] == sorted;
  }

  // ---- The client ----

  // A JavaScript number: what `typeof candidate === 'number'` or Number(candidate) yields.
  datatype JsNumber = NaN | Infinite | Finite(value: real)

  // An element of the decoded array, with its coercion by Number(...) when it is not a number.
  datatype Candidate = NumberValue(number: JsNumber) | OtherValue(coerced: JsNumber)

  // The wire value: an array, a text (with what JSON.parse makes of it), or null.
  datatype Wire = ArrayWire(items: seq<Candidate>) | TextWire(parsed: Option<seq<Candidate>>) | NullWire

  const MAX_SAFE: nat := 9007199254740991

  function Coerce(c: Candidate): JsNumber {
    match c
    case NumberValue(n) => n
    case OtherValue(n) => n
  }

  // Number.isSafeInteger(id) && id > 0
  predicate IsParcelId(n: JsNumber) {
    n.Finite? && n.value == n.value.Floor as real && 0.0 < n.value <= MAX_SAFE as real
  }

  function Items(value: Wire): seq<Candidate> {
    match value
    case ArrayWire(items) => items
    case TextWire(Some(items)) => items
    case TextWire(None) => []
    case NullWire => []
  }

  // Positive safe integers among the candidates, each where it first occurs.
  function Normalized(items: seq<Candidate>): seq<nat> {
    if items == [] then []
    else
      var ids, n := Normalized(items[..|items| - 1]), Coerce(items[|items| - 1]);
      if IsParcelId(n) && n.value.Floor !in ids then ids + [n.value.Floor] else ids
  }

  method NormalizeParcelIDs(value: Wire) returns (ids: seq<nat>)
    ensures ids == Normalized(Items(value))
    ensures value.NullWire? || value == TextWire(None) ==> ids == []
    ensures forall items :: value == ArrayWire(items) || value == TextWire(Some(items)) ==> FirstsOf(items, ids)
    ensures forall sent :: AllSafe(sent) && Sends(value, UniqueSorted(sent)) ==> ids == UniqueSorted(sent)
  {
    var candidates: seq<Candidate> := [];
    match value {
      case ArrayWire(items) => candidates := items;
      case TextWire(Some(items)) => candidates := items;
      case TextWire(None) => return [];
      case NullWire =>
    }
    var seen: set<nat> := {};
    ids := [];
    for i := 0 to |candidates|
      invariant ids == Normalized(candidates[..i])
      invariant forall x :: x in seen <==> x in ids
    {
      assert candidates[..i + 1][..i] == candidates[..i];
      var id := Coerce(candidates[i]);
      if IsParcelId(id) && id.value.Floor !in seen {
        seen := seen + {id.value.Floor};
        ids := ids + [id.value.Floor];
      }
    }
    assert candidates[..|candidates|] == candidates;
    FirstsAreKept(candidates);
    forall sent | AllSafe(sent) && Sends(value, UniqueSorted(sent)) ensures ids == UniqueSorted(sent) {
      ServerListReachesThePage(sent);
    }
  }

  ghost predicate AllSafe(ids: seq<nat>) {
    forall x :: x in ids ==> 0 < x <= MAX_SAFE
  }

  // The list of numbers, as an array or as the JSON text of one.
  ghost predicate Sends(value: Wire, ids: seq<nat>) {
    value == ArrayWire(AsCandidates(ids)) || value == TextWire(Some(AsCandidates(ids)))
  }

  function AsCandidates(ids: seq<nat>): seq<Candidate> {
    seq(|ids|, i requires 0 <= i < |ids| => NumberValue(Finite(ids[i] as real)))
  }

  // A candidate names a parcel when it is, or converts to, its positive safe number.
  ghost predicate Names(c: Candidate, x: nat) {
    0 < x <= MAX_SAFE && (c == NumberValue(Finite(x as real)) || c == OtherValue(Finite(x as real)))
  }

  ghost predicate NamesParcel(items: seq<Candidate>, x: nat) {
    exists c :: c in items && Names(c, x)
  }

  lemma NamingIsExact(c: Candidate, x: nat)
    ensures Names(c, x) <==> IsParcelId(Coerce(c)) && Coerce(c).value.Floor == x
  {
  }

  // Exactly the positive safe integers survive, without repetition.
  lemma {:induction false} NormalizedMembers(items: seq<Candidate>)
    ensures Distinct(Normalized(items))
    ensures forall x: nat :: x in Normalized(items) <==> NamesParcel(items, x)
  {
    if items != [] {
      var front, last := items[..|items| - 1], items[|items| - 1];
      NormalizedMembers(front);
      assert items == front + [last];
      forall x: nat ensures x in Normalized(items) <==> NamesParcel(items, x) {
        NamingIsExact(last, x);
        if x in Normalized(items) {
          if x in Normalized(front) {
            var c :| c in front && Names(c, x);
            assert c in items;
          } else {
            assert last in items;
          }
        }
        if c :| c in items && Names(c, x) {
          assert c in front || c == last;
        }
      }
    }
  }

  // The candidate at position p is the first that names x.
  ghost predicate FirstNamedAt(items: seq<Candidate>, x: nat, p: nat) {
    p < |items| && NamesParcel([items[p]], x) && !NamesParcel(items[..p], x)
  }

  // Exactly the numbers that candidates name, each once, in the order in which they are first named.
  ghost predicate FirstsOf(items: seq<Candidate>, ids: seq<nat>) {
    && (forall x: nat :: x in ids <==> NamesParcel(items, x))
    && exists at: seq<nat> :: NamedAt(items, ids, at)
  }

  ghost predicate NamedAt(items: seq<Candidate>, ids: seq<nat>, at: seq<nat>) {
    && |at| == |ids| && Increasing(at)
    && forall i :: 0 <= i < |ids| ==> FirstNamedAt(items, ids[i], at[i])
  }

  lemma FirstStays(items: seq<Candidate>, more: seq<Candidate>, x: nat, p: nat)
    requires FirstNamedAt(items, x, p)
    ensures FirstNamedAt(items + more, x, p)
  {
    assert (items + more)[..p] == items[..p] && (items + more)[p] == items[p];
  }

  lemma {:induction false} FirstsAreKept(items: seq<Candidate>)
    ensures FirstsOf(items, Normalized(items))
  {
    NormalizedMembers(items);
    if items == [] {
      assert NamedAt(items, [], []);
    } else {
      var front, last := items[..|items| - 1], items[|items| - 1];
      FirstsAreKept(front);
      assert items == front + [last];
      var ids := Normalized(front);
      var at: seq<nat> :| NamedAt(front, ids, at);
      forall i | 0 <= i < |ids| ensures FirstNamedAt(items, ids[i], at[i]) {
        FirstStays(front, [last], ids[i], at[i]);
      }
      if Normalized(items) == ids {
        assert NamedAt(items, ids, at);
      } else {
        NamingIsExact(last, Coerce(last).value.Floor);
        LastIsFirst(front, last, Coerce(last).value.Floor);
        assert NamedAt(items, Normalized(items), at + [|front|]);
      }
    }
  }

  lemma LastIsFirst(front: seq<Candidate>, last: Candidate, x: nat)
    requires Names(last, x) && x !in Normalized(front)
    ensures FirstNamedAt(front + [last], x, |front|)
  {
    NormalizedMembers(front);
    assert (front + [last])[..|front|] == front && last in [last];
  }

  lemma {:induction false} SafeListSurvives(ids: seq<nat>)
    requires Distinct(ids) && forall i :: 0 <= i < |ids| ==> 0 < ids[i] <= MAX_SAFE
    ensures Normalized(AsCandidates(ids)) == ids
  {
    if ids != [] {
      var front := ids[..|ids| - 1];
      SafeListSurvives(front);
      assert AsCandidates(ids)[..|ids| - 1] == AsCandidates(front);
      assert ids == front + [ids[|ids| - 1]];
      assert ids[|ids| - 1] !in front;
    }
  }

  /** The list the server stores reaches the page unchanged exactly when every
      participant has a positive ID that JavaScript can hold exactly. */
  lemma ServerListReachesThePage(ids: seq<nat>)
    ensures Normalized(AsCandidates(UniqueSorted(ids))) == UniqueSorted(ids)
      <==> forall x :: x in ids ==> 0 < x <= MAX_SAFE
  {
    var sent := UniqueSorted(ids);
    if forall x :: x in ids ==> 0 < x <= MAX_SAFE {
      forall i | 0 <= i < |sent| ensures 0 < sent[i] <= MAX_SAFE {
        assert sent[i] in sent;
      }
      SafeListSurvives(sent);
    }
    if Normalized(AsCandidates(sent)) == sent {
      NormalizedMembers(AsCandidates(sent));
      forall x | x in ids ensures 0 < x <= MAX_SAFE {
        assert x in sent;
        var c :| c in AsCandidates(sent) && Names(c, x);
      }
    }
  }
}
