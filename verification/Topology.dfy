/**
 Topology findings of a candidate boundary against its neighbours: overlaps,
 gaps and dangling edges, in neighbour order and without repeated evidence.
 */
module Topology {
  import opened Basics
  import opened Polygons
  import opened Sorting

  datatype ParcelReference = ParcelReference(id: Id, polygon: Polygon)

  function RefId(r: ParcelReference): nat { r.id }

  datatype FindingKind = Overlap | Gap | DanglingEdge

  function KindName(kind: FindingKind): string {
    match kind
    case Overlap => "overlap"
    case Gap => "gap"
    case DanglingEdge => "dangling_edge"
  }

  datatype Finding = Finding(kind: FindingKind, geometry: string, magnitude: real, parcelIds: seq<Id>)

  function LargerOf(a: real, b: real): real {
    if a < b then b else a
  }

  function AreaThreshold(tolerance: real): real {
    LargerOf(0.000001, tolerance * tolerance * 0.0001)
  }

  // ---- The three conditions; None is a library error ----

  function OverlapFinding(e: Engine, candidate: Shape, n: ParcelReference, tolerance: real): Option<seq<Finding>> {
    match e.overlay(candidate, n.polygon.shape)
    case None => None
    case Some(common) =>
      if e.area(common) > AreaThreshold(tolerance) then
        match e.encode(common)
        case None => None
        case Some(evidence) => Some([Finding(Overlap, evidence, e.area(common), [n.id])])
      else Some([])
  }

  function GapFinding(e: Engine, base: Shape, candidate: Shape, n: ParcelReference, tolerance: real): Option<seq<Finding>> {
    var before, now := e.distance(base, n.polygon.shape), e.distance(candidate, n.polygon.shape);
    if before.Some? && now.Some? && before.value <= tolerance && now.value > tolerance then
      match e.encode(e.boundary(candidate))
      case None => None
      case Some(evidence) => Some([Finding(Gap, evidence, now.value, [n.id])])
    else Some([])
  }

  function DanglingFinding(e: Engine, candidate: Shape, n: ParcelReference, tolerance: real): Option<seq<Finding>> {
    var now := e.distance(candidate, n.polygon.shape);
    match e.overlay(e.boundary(candidate), e.boundary(n.polygon.shape))
    case None => None
    case Some(shared) =>
      if now.Some? && now.value <= tolerance && e.length(shared) <= tolerance then
        match e.encode(shared)
        case None => None
        case Some(evidence) => Some([Finding(DanglingEdge, evidence, LargerOf(tolerance - e.length(shared), 0.0), [n.id])])
      else Some([])
  }

  function Join<T>(a: Option<seq<T>>, b: Option<seq<T>>): Option<seq<T>> {
    if a.None? || b.None? then None else Some(a.value + b.value)
  }

  function Against(e: Engine, base: Shape, candidate: Shape, n: ParcelReference, tolerance: real): Option<seq<Finding>> {
    Join(Join(OverlapFinding(e, candidate, n, tolerance), GapFinding(e, base, candidate, n, tolerance)),
         DanglingFinding(e, candidate, n, tolerance))
  }

  function AgainstAll(e: Engine, base: Shape, candidate: Shape, ns: seq<ParcelReference>, tolerance: real): Option<seq<Finding>> {
    if ns == [] then Some([])
    else
      Join(AgainstAll(e, base, candidate, ns[..|ns| - 1], tolerance), Against(e, base, candidate, ns[|ns| - 1], tolerance))
  }

  // The key of the `seen` map.
  function DedupKey(f: Finding): string {
    KindName(f.kind) + "|" + f.geometry
  }

  function Keys(fs: seq<Finding>): set<string> {
    set f | f in fs :: DedupKey(f)
  }

  function Deduplicated(fs: seq<Finding>): seq<Finding> {
    if fs == [] then []
    else
      var front, last := fs[..|fs| - 1], fs[|fs| - 1];
      if DedupKey(last) in Keys(front) then Deduplicated(front) else Deduplicated(front) + [last]
  }

  function FindingsOf(e: Engine, base: Shape, candidate: Shape, ns: seq<ParcelReference>, tolerance: real): Option<seq<Finding>> {
    match AgainstAll(e, base, candidate, SortedBy(ns, RefId), tolerance)
    case None => None
    case Some(all) => Some(Deduplicated(all))
  }

  method DeduplicateFindings(input: seq<Finding>) returns (output: seq<Finding>)
    ensures output == Deduplicated(input)
  {
    var seen: set<string> := {};
    output := [];
    for i := 0 to |input|
      invariant seen == Keys(input[..i])
      invariant output == Deduplicated(input[..i])
    {
      assert input[..i + 1][..i] == input[..i];
      assert input[..i + 1] == input[..i] + [input[i]];
      var key := DedupKey(input[i]);
      if key !in seen {
        seen := seen + {key};
        output := output + [input[i]];
      }
    }
    assert input[..|input|] == input;
  }

  /** Sorts the caller's list in place, then appends the findings neighbour by
      neighbour; the first library error ends the run. */
  method DetectTopology(e: Engine, base: Shape, candidate: Shape, neighbours: array<ParcelReference>, tolerance: real)
    returns (found: Option<seq<Finding>>)
    modifies neighbours
    ensures neighbours[..] == SortedBy(old(neighbours[..]), RefId)
    ensures found == FindingsOf(e, base, candidate, old(neighbours[..]), tolerance)
  {
    Sort(neighbours, RefId);
    var findings: seq<Finding> := [];
    for i := 0 to neighbours.Length
      invariant neighbours[..] == SortedBy(old(neighbours[..]), RefId)
      invariant AgainstAll(e, base, candidate, neighbours[..i], tolerance) == Some(findings)
    {
      assert neighbours[..i + 1][..i] == neighbours[..i];
      var own := DetectAgainst(e, base, candidate, neighbours[i], tolerance);
      if own.None? {
        ErrorsPersist(e, base, candidate, neighbours[..], tolerance, i + 1);
        return None;
      }
      findings := findings + own.value;
    }
    assert neighbours[..neighbours.Length] == neighbours[..];
    var output := DeduplicateFindings(findings);
    return Some(output);
  }

  method DetectAgainst(e: Engine, base: Shape, candidate: Shape, n: ParcelReference, tolerance: real)
    returns (own: Option<seq<Finding>>)
    ensures own == Against(e, base, candidate, n, tolerance)
  {
    var found: seq<Finding> := [];
    var overlap := e.overlay(candidate, n.polygon.shape);
    if overlap.None? {
      return None;
    }
    var area := e.area(overlap.value);
    if area > AreaThreshold(tolerance) {
      var evidence := e.encode(overlap.value);
      if evidence.None? {
        return None;
      }
      found := [Finding(Overlap, evidence.value, area, [n.id])];
    }
    assert OverlapFinding(e, candidate, n, tolerance) == Some(found);
    assert found + [] == found;
    var before, now := e.distance(base, n.polygon.shape), e.distance(candidate, n.polygon.shape);
    if before.Some? && now.Some? && before.value <= tolerance && now.value > tolerance {
      var evidence := e.encode(e.boundary(candidate));
      if evidence.None? {
        return None;
      }
      found := found + [Finding(Gap, evidence.value, now.value, [n.id])];
    }
    assert Join(OverlapFinding(e, candidate, n, tolerance), GapFinding(e, base, candidate, n, tolerance)) == Some(found);
    assert found + [] == found;
    var shared := e.overlay(e.boundary(candidate), e.boundary(n.polygon.shape));
    if shared.None? {
      return None;
    }
    var length := e.length(shared.value);
    if now.Some? && now.value <= tolerance && length <= tolerance {
      var evidence := e.encode(shared.value);
      if evidence.None? {
        return None;
      }
      found := found + [Finding(DanglingEdge, evidence.value, LargerOf(tolerance - length, 0.0), [n.id])];
    }
    return Some(found);
  }

  lemma {:induction false} ErrorsPersist(e: Engine, base: Shape, candidate: Shape, ns: seq<ParcelReference>, tolerance: real, k: nat)
    requires k <= |ns| && AgainstAll(e, base, candidate, ns[..k], tolerance).None?
    ensures AgainstAll(e, base, candidate, ns, tolerance).None?
    decreases |ns|
  {
    if k == |ns| {
      assert ns[..k] == ns;
    } else {
      assert ns[..|ns| - 1][..k] == ns[..k];
      ErrorsPersist(e, base, candidate, ns[..|ns| - 1], tolerance, k);
    }
  }

  // ---- What the run reports ----

  // The "kind|geometry" text names one kind and one geometry.
  lemma DedupKeyIsInjective(f: Finding, g: Finding)
    ensures DedupKey(f) == DedupKey(g) <==> f.kind == g.kind && f.geometry == g.geometry
  {
    if DedupKey(f) == DedupKey(g) {
      var k, m := KindName(f.kind), KindName(g.kind);
      assert DedupKey(f)[|k|] == '|' && DedupKey(g)[|m|] == '|';
      assert "overlap"[3] != '|' && "dangling_edge"[3] != '|' && "dangling_edge"[7] != '|';
      assert |k| == |m|;
      assert DedupKey(f)[|k| + 1..] == f.geometry && DedupKey(g)[|m| + 1..] == g.geometry;
    }
  }

  // The order in which neighbours with distinct IDs are supplied does not matter, errors included.
  lemma NeighbourOrderIsIrrelevant(e: Engine, base: Shape, candidate: Shape, a: seq<ParcelReference>, b: seq<ParcelReference>, tolerance: real)
    requires multiset(a) == multiset(b) && DistinctKeys(a, RefId)
    ensures FindingsOf(e, base, candidate, a, tolerance) == FindingsOf(e, base, candidate, b, tolerance)
  {
    SortForgetsOrder(a, b, RefId);
  }

  // Deduplication keeps the first finding of each kind and geometry, in order, and nothing else.
  lemma {:induction false} DeduplicatedKeepsFirsts(fs: seq<Finding>)
    ensures forall i, j :: 0 <= i < j < |Deduplicated(fs)|
              ==> DedupKey(Deduplicated(fs)[i]) != DedupKey(Deduplicated(fs)[j])
    ensures Keys(Deduplicated(fs)) == Keys(fs)
    ensures forall g :: g in Deduplicated(fs) <==> FirstOfItsKey(fs, g)
  {
    if fs != [] {
      var front, last := fs[..|fs| - 1], fs[|fs| - 1];
      assert fs == front + [last];
      DeduplicatedKeepsFirsts(front);
      var kept := Deduplicated(front);
      if DedupKey(last) !in Keys(front) {
        forall i | 0 <= i < |kept| ensures DedupKey(kept[i]) != DedupKey(last) {
          assert kept[i] in kept;
          assert DedupKey(kept[i]) in Keys(kept);
        }
      }
      forall g ensures g in Deduplicated(fs) <==> FirstOfItsKey(fs, g) {
        FirstOfSnoc(front, last, g);
      }
      assert Keys(fs) == Keys(front) + {DedupKey(last)};
      assert Keys(kept + [last]) == Keys(kept) + {DedupKey(last)};
    }
  }

  ghost predicate FirstOfItsKey(fs: seq<Finding>, g: Finding) {
    exists i :: 0 <= i < |fs| && fs[i] == g && forall j :: 0 <= j < i ==> DedupKey(fs[j]) != DedupKey(g)
  }

  lemma FirstOfSnoc(front: seq<Finding>, last: Finding, g: Finding)
    ensures FirstOfItsKey(front + [last], g) <==> FirstOfItsKey(front, g) || (g == last && DedupKey(last) !in Keys(front))
  {
    var fs := front + [last];
    if FirstOfItsKey(front, g) {
      var i :| 0 <= i < |front| && front[i] == g && forall j :: 0 <= j < i ==> DedupKey(front[j]) != DedupKey(g);
      assert fs[i] == g && forall j :: 0 <= j < i ==> DedupKey(fs[j]) != DedupKey(g);
    }
    if g == last && DedupKey(last) !in Keys(front) {
      assert fs[|front|] == g;
      forall j | 0 <= j < |front| ensures DedupKey(fs[j]) != DedupKey(g) {
        assert front[j] in front;
      }
    }
    if FirstOfItsKey(fs, g) {
      var i :| 0 <= i < |fs| && fs[i] == g && forall j :: 0 <= j < i ==> DedupKey(fs[j]) != DedupKey(g);
      if i < |front| {
        forall j | 0 <= j < i ensures DedupKey(front[j]) != DedupKey(g) {
          assert fs[j] == front[j];
        }
        assert front[i] == g;
      } else {
        forall f | f in front ensures DedupKey(f) != DedupKey(g) {
          var j :| 0 <= j < |front| && front[j] == f;
          assert fs[j] == f;
        }
      }
    }
  }

  ghost predicate From(e: Engine, base: Shape, candidate: Shape, n: ParcelReference, tolerance: real, f: Finding) {
    Against(e, base, candidate, n, tolerance).Some? && f in Against(e, base, candidate, n, tolerance).value
  }

  // Every finding comes from a neighbour, and every neighbour's findings are there.
  lemma {:induction false} FindingsComeFromNeighbours(e: Engine, base: Shape, candidate: Shape, ns: seq<ParcelReference>, tolerance: real, f: Finding)
    requires AgainstAll(e, base, candidate, ns, tolerance).Some?
    ensures f in AgainstAll(e, base, candidate, ns, tolerance).value
      <==> exists i :: 0 <= i < |ns| && From(e, base, candidate, ns[i], tolerance, f)
  {
    if ns != [] {
      var front := ns[..|ns| - 1];
      FindingsComeFromNeighbours(e, base, candidate, front, tolerance, f);
      if i :| 0 <= i < |front| && From(e, base, candidate, front[i], tolerance, f) {
        assert From(e, base, candidate, ns[i], tolerance, f);
      }
      if i :| 0 <= i < |ns| && From(e, base, candidate, ns[i], tolerance, f) {
        assert i == |ns| - 1 || From(e, base, candidate, front[i], tolerance, f);
      }
    }
  }

  // In neighbour order, an earlier finding never names a later neighbour.
  lemma {:induction false} FindingsFollowNeighbours(e: Engine, base: Shape, candidate: Shape, ns: seq<ParcelReference>, tolerance: real)
    requires AgainstAll(e, base, candidate, ns, tolerance).Some? && StrictlyOrdered(ns, RefId)
    ensures var all := AgainstAll(e, base, candidate, ns, tolerance).value;
      && (forall k :: 0 <= k < |all| ==> |all[k].parcelIds| == 1)
      && (forall k, m :: 0 <= k <= m < |all| ==> all[k].parcelIds[0] <= all[m].parcelIds[0])
      && (ns != [] ==> forall k :: 0 <= k < |all| ==> all[k].parcelIds[0] <= ns[|ns| - 1].id)
  {
    if ns != [] {
      var front, last := ns[..|ns| - 1], ns[|ns| - 1];
      FindingsFollowNeighbours(e, base, candidate, front, tolerance);
      var before, own := AgainstAll(e, base, candidate, front, tolerance).value, Against(e, base, candidate, last, tolerance).value;
      assert forall k :: 0 <= k < |own| ==> own[k].parcelIds == [last.id];
      if front != [] {
        assert RefId(front[|front| - 1]) < RefId(last);
      } else {
        assert before == [];
      }
    }
  }

  ghost predicate Represents(g: Finding, f: Finding) {
    g.kind == f.kind && g.geometry == f.geometry && |g.parcelIds| == |f.parcelIds| == 1 && g.parcelIds[0] <= f.parcelIds[0]
  }

  lemma FirstIsLowest(all: seq<Finding>, f: Finding) returns (g: Finding)
    requires forall k :: 0 <= k < |all| ==> |all[k].parcelIds| == 1
    requires forall k, m :: 0 <= k <= m < |all| ==> all[k].parcelIds[0] <= all[m].parcelIds[0]
    requires f in all
    ensures g in Deduplicated(all) && Represents(g, f)
  {
    DeduplicatedKeepsFirsts(all);
    assert DedupKey(f) in Keys(all);
    g :| g in Deduplicated(all) && DedupKey(g) == DedupKey(f);
    DedupKeyIsInjective(g, f);
    assert FirstOfItsKey(all, g);
    var k :| 0 <= k < |all| && all[k] == g && forall j :: 0 <= j < k ==> DedupKey(all[j]) != DedupKey(g);
    var m :| 0 <= m < |all| && all[m] == f;
    assert k <= m;
  }

  /** Each finding of a neighbour is represented in the report: by one finding
      of the same kind and evidence, naming no higher neighbour. */
  lemma RepresentedByLowestNeighbour(e: Engine, base: Shape, candidate: Shape, ns: seq<ParcelReference>, tolerance: real,
                                     n: ParcelReference, f: Finding)
    requires DistinctKeys(ns, RefId) && FindingsOf(e, base, candidate, ns, tolerance).Some?
    requires n in ns && From(e, base, candidate, n, tolerance, f)
    ensures f.parcelIds == [n.id]
    ensures exists g :: g in FindingsOf(e, base, candidate, ns, tolerance).value && Represents(g, f)
  {
    hide SortedBy, Deduplicated, AgainstAll, From, Represents, DistinctKeys, StrictlyOrdered, Ordered;
    var sorted := SortedBy(ns, RefId);
    SortForgetsOrder(ns, ns, RefId);
    SortedByProperties(ns, RefId);
    SameMembers(sorted, ns);
    FindingsComeFromNeighbours(e, base, candidate, sorted, tolerance, f);
    FindingsFollowNeighbours(e, base, candidate, sorted, tolerance);
    var g := FirstIsLowest(AgainstAll(e, base, candidate, sorted, tolerance).value, f);
    FromNames(e, base, candidate, n, tolerance, f);
  }

  lemma FromNames(e: Engine, base: Shape, candidate: Shape, n: ParcelReference, tolerance: real, f: Finding)
    requires From(e, base, candidate, n, tolerance, f)
    ensures f.parcelIds == [n.id]
  {
  }

  lemma GapEvidence(e: Engine, base: Shape, candidate: Shape, ns: seq<ParcelReference>, tolerance: real, f: Finding)
    requires AgainstAll(e, base, candidate, ns, tolerance).Some?
    requires f in AgainstAll(e, base, candidate, ns, tolerance).value && f.kind == Gap
    ensures e.encode(e.boundary(candidate)) == Some(f.geometry)
  {
    FindingsComeFromNeighbours(e, base, candidate, ns, tolerance, f);
    var i :| 0 <= i < |ns| && From(e, base, candidate, ns[i], tolerance, f);
    assert f in GapFinding(e, base, candidate, ns[i], tolerance).value;
  }

  // The report never repeats a kind and geometry, and reports at most one gap.
  lemma ReportHasNoDuplicates(e: Engine, base: Shape, candidate: Shape, ns: seq<ParcelReference>, tolerance: real, i: nat, j: nat)
    requires FindingsOf(e, base, candidate, ns, tolerance).Some?
    requires i < j < |FindingsOf(e, base, candidate, ns, tolerance).value|
    ensures var report := FindingsOf(e, base, candidate, ns, tolerance).value;
      && !(report[i].kind == report[j].kind && report[i].geometry == report[j].geometry)
      && !(report[i].kind == Gap && report[j].kind == Gap)
  {
    var sorted := SortedBy(ns, RefId);
    var all := AgainstAll(e, base, candidate, sorted, tolerance).value;
    var report := Deduplicated(all);
    DeduplicatedKeepsFirsts(all);
    DedupKeyIsInjective(report[i], report[j]);
    if report[i].kind == Gap && report[j].kind == Gap {
      assert report[i] in report && report[j] in report;
      assert FirstOfItsKey(all, report[i]) && FirstOfItsKey(all, report[j]);
      GapEvidence(e, base, candidate, sorted, tolerance, report[i]);
      GapEvidence(e, base, candidate, sorted, tolerance, report[j]);
    }
  }

  // No neighbour is reported both as a gap and as a dangling edge.
  lemma GapOrDanglingNotBoth(e: Engine, base: Shape, candidate: Shape, n: ParcelReference, tolerance: real, f: Finding, g: Finding)
    requires From(e, base, candidate, n, tolerance, f) && From(e, base, candidate, n, tolerance, g)
    ensures !(f.kind == Gap && g.kind == DanglingEdge)
  {
    assert OverlapFinding(e, candidate, n, tolerance).Some? && GapFinding(e, base, candidate, n, tolerance).Some?;
  }
}
