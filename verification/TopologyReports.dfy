/**
 When a neighbour conflicts, and what the report then says: both in terms of
 overlays, distances and lengths alone.
 */
module TopologyReports {
  import opened Basics
  import opened Polygons
  import opened Sorting
  import opened Topology

  // ---- The three conditions of one neighbour ----

  ghost predicate Overlaps(e: Engine, candidate: Shape, n: ParcelReference, tolerance: real) {
    var common := e.overlay(candidate, n.polygon.shape);
    common.Some? && e.area(common.value) > 0.000001 && e.area(common.value) > tolerance * tolerance / 10000.0
  }

  // The parcel touched the neighbour within tolerance, and the candidate no longer does.
  ghost predicate Recedes(e: Engine, base: Shape, candidate: Shape, n: ParcelReference, tolerance: real) {
    var before, now := e.distance(base, n.polygon.shape), e.distance(candidate, n.polygon.shape);
    before.Some? && now.Some? && before.value <= tolerance < now.value
  }

  // The candidate is within tolerance, but shares no more than that much boundary.
  ghost predicate HardlyTouches(e: Engine, candidate: Shape, n: ParcelReference, tolerance: real) {
    var now, shared := e.distance(candidate, n.polygon.shape), e.overlay(e.boundary(candidate), e.boundary(n.polygon.shape));
    now.Some? && shared.Some? && now.value <= tolerance && e.length(shared.value) <= tolerance
  }

  // ---- The finding that goes with each ----

  ghost predicate TellsOverlap(e: Engine, candidate: Shape, n: ParcelReference, f: Finding) {
    var common := e.overlay(candidate, n.polygon.shape);
    && common.Some? && e.encode(common.value) == Some(f.geometry)
    && f.kind == Overlap && f.magnitude == e.area(common.value) && f.parcelIds == [n.id]
  }

  ghost predicate TellsGap(e: Engine, candidate: Shape, n: ParcelReference, f: Finding) {
    && e.encode(e.boundary(candidate)) == Some(f.geometry)
    && f.kind == Gap && e.distance(candidate, n.polygon.shape) == Some(f.magnitude) && f.parcelIds == [n.id]
  }

  ghost predicate TellsDanglingEdge(e: Engine, candidate: Shape, n: ParcelReference, tolerance: real, f: Finding) {
    var shared := e.overlay(e.boundary(candidate), e.boundary(n.polygon.shape));
    && shared.Some? && e.encode(shared.value) == Some(f.geometry)
    && f.kind == DanglingEdge && f.magnitude == tolerance - e.length(shared.value) && f.parcelIds == [n.id]
  }

  ghost predicate Gives(e: Engine, base: Shape, candidate: Shape, n: ParcelReference, tolerance: real, f: Finding) {
    || (Overlaps(e, candidate, n, tolerance) && TellsOverlap(e, candidate, n, f))
    || (Recedes(e, base, candidate, n, tolerance) && TellsGap(e, candidate, n, f))
    || (HardlyTouches(e, candidate, n, tolerance) && TellsDanglingEdge(e, candidate, n, tolerance, f))
  }

  // Both overlays exist, and whatever has to be shown as evidence can be encoded.
  ghost predicate Readable(e: Engine, base: Shape, candidate: Shape, n: ParcelReference, tolerance: real) {
    var common, shared := e.overlay(candidate, n.polygon.shape), e.overlay(e.boundary(candidate), e.boundary(n.polygon.shape));
    && common.Some? && shared.Some?
    && (Overlaps(e, candidate, n, tolerance) ==> e.encode(common.value).Some?)
    && (Recedes(e, base, candidate, n, tolerance) ==> e.encode(e.boundary(candidate)).Some?)
    && (HardlyTouches(e, candidate, n, tolerance) ==> e.encode(shared.value).Some?)
  }

  lemma ThresholdIsBoth(tolerance: real, area: real)
    ensures area > AreaThreshold(tolerance) <==> area > 0.000001 && area > tolerance * tolerance / 10000.0
  {
  }

  lemma OverlapPart(e: Engine, candidate: Shape, n: ParcelReference, tolerance: real, f: Finding)
    ensures var part, common := OverlapFinding(e, candidate, n, tolerance), e.overlay(candidate, n.polygon.shape);
            && (part.Some? <==> common.Some? && (Overlaps(e, candidate, n, tolerance) ==> e.encode(common.value).Some?))
            && (part.Some? ==> (f in part.value <==> Overlaps(e, candidate, n, tolerance) && TellsOverlap(e, candidate, n, f)))
  {
    var common := e.overlay(candidate, n.polygon.shape);
    if common.Some? {
      ThresholdIsBoth(tolerance, e.area(common.value));
    }
  }

  lemma OneNeighbourGives(e: Engine, base: Shape, candidate: Shape, n: ParcelReference, tolerance: real, f: Finding)
    ensures Against(e, base, candidate, n, tolerance).Some? <==> Readable(e, base, candidate, n, tolerance)
    ensures Readable(e, base, candidate, n, tolerance) ==>
              (From(e, base, candidate, n, tolerance, f) <==> Gives(e, base, candidate, n, tolerance, f))
  {
    OverlapPart(e, candidate, n, tolerance, f);
    hide OverlapFinding, Overlaps, TellsOverlap;
  }

  lemma {:induction false} AllReadable(e: Engine, base: Shape, candidate: Shape, ns: seq<ParcelReference>, tolerance: real)
    ensures AgainstAll(e, base, candidate, ns, tolerance).Some? <==> forall n :: n in ns ==> Readable(e, base, candidate, n, tolerance)
  {
    hide Against, Readable;
    if ns != [] {
      var front, last := ns[..|ns| - 1], ns[|ns| - 1];
      assert ns == front + [last];
      AllReadable(e, base, candidate, front, tolerance);
      OneNeighbourGives(e, base, candidate, last, tolerance, Finding(Gap, "", 0.0, []));
      assert last in ns;
    }
  }

  // ---- The report ----

  // A neighbour gives a finding of the same kind with the same evidence.
  ghost predicate GivesAlike(e: Engine, base: Shape, candidate: Shape, n: ParcelReference, tolerance: real, f: Finding) {
    exists h :: Gives(e, base, candidate, n, tolerance, h) && h.kind == f.kind && h.geometry == f.geometry
  }

  // Some neighbour gives the finding, and none with a lower ID gives one like it.
  ghost predicate GivenFirst(e: Engine, base: Shape, candidate: Shape, ns: seq<ParcelReference>, tolerance: real, f: Finding) {
    exists n :: n in ns && Gives(e, base, candidate, n, tolerance, f)
      && forall m :: m in ns && m.id < n.id ==> !GivesAlike(e, base, candidate, m, tolerance, f)
  }

  lemma GivesInAll(e: Engine, base: Shape, candidate: Shape, ns: seq<ParcelReference>, tolerance: real, f: Finding)
    requires AgainstAll(e, base, candidate, ns, tolerance).Some?
    ensures f in AgainstAll(e, base, candidate, ns, tolerance).value
      <==> exists n :: n in ns && Gives(e, base, candidate, n, tolerance, f)
  {
    hide From, Gives, Readable, AgainstAll, Against;
    FindingsComeFromNeighbours(e, base, candidate, ns, tolerance, f);
    AllReadable(e, base, candidate, ns, tolerance);
    forall n | n in ns ensures From(e, base, candidate, n, tolerance, f) <==> Gives(e, base, candidate, n, tolerance, f) {
      OneNeighbourGives(e, base, candidate, n, tolerance, f);
    }
    if n :| n in ns && Gives(e, base, candidate, n, tolerance, f) {
      var i :| 0 <= i < |ns| && ns[i] == n;
      assert From(e, base, candidate, ns[i], tolerance, f);
    }
  }

  lemma GivenOnce(e: Engine, base: Shape, candidate: Shape, n: ParcelReference, tolerance: real, f: Finding, g: Finding)
    requires Gives(e, base, candidate, n, tolerance, f)
    ensures f.parcelIds == [n.id]
    ensures Gives(e, base, candidate, n, tolerance, g) && g.kind == f.kind ==> g == f
  {
  }

  // What comes first of its key in the list of all findings is given by the lowest neighbour.
  lemma FirstIsGivenFirst(e: Engine, base: Shape, candidate: Shape, ns: seq<ParcelReference>, tolerance: real, f: Finding)
    requires StrictlyOrdered(ns, RefId) && AgainstAll(e, base, candidate, ns, tolerance).Some?
    requires FirstOfItsKey(AgainstAll(e, base, candidate, ns, tolerance).value, f)
    ensures GivenFirst(e, base, candidate, ns, tolerance, f)
  {
    hide AgainstAll, Gives, DedupKey, StrictlyOrdered;
    var all := AgainstAll(e, base, candidate, ns, tolerance).value;
    FindingsFollowNeighbours(e, base, candidate, ns, tolerance);
    var i :| 0 <= i < |all| && all[i] == f && forall j :: 0 <= j < i ==> DedupKey(all[j]) != DedupKey(f);
    GivesInAll(e, base, candidate, ns, tolerance, f);
    var n :| n in ns && Gives(e, base, candidate, n, tolerance, f);
    GivenOnce(e, base, candidate, n, tolerance, f, f);
    forall m | m in ns && m.id < n.id ensures !GivesAlike(e, base, candidate, m, tolerance, f) {
      if h :| Gives(e, base, candidate, m, tolerance, h) && h.kind == f.kind && h.geometry == f.geometry {
        GivenOnce(e, base, candidate, m, tolerance, h, h);
        GivesInAll(e, base, candidate, ns, tolerance, h);
        var j :| 0 <= j < |all| && all[j] == h;
        DedupKeyIsInjective(h, f);
      }
    }
  }

  lemma GivenFirstIsKept(e: Engine, base: Shape, candidate: Shape, ns: seq<ParcelReference>, tolerance: real, f: Finding)
    requires StrictlyOrdered(ns, RefId) && AgainstAll(e, base, candidate, ns, tolerance).Some?
    requires GivenFirst(e, base, candidate, ns, tolerance, f)
    ensures f in Deduplicated(AgainstAll(e, base, candidate, ns, tolerance).value)
  {
    hide AgainstAll, Gives, DedupKey;
    var all := AgainstAll(e, base, candidate, ns, tolerance).value;
    FindingsFollowNeighbours(e, base, candidate, ns, tolerance);
    var n :| n in ns && Gives(e, base, candidate, n, tolerance, f)
      && forall m :: m in ns && m.id < n.id ==> !GivesAlike(e, base, candidate, m, tolerance, f);
    GivesInAll(e, base, candidate, ns, tolerance, f);
    var g := FirstIsLowest(all, f);
    DeduplicatedKeepsFirsts(all);
    assert g in all;
    GivesInAll(e, base, candidate, ns, tolerance, g);
    var m :| m in ns && Gives(e, base, candidate, m, tolerance, g);
    GivenOnce(e, base, candidate, m, tolerance, g, g);
    GivenOnce(e, base, candidate, n, tolerance, f, g);
    assert !(m.id < n.id);
    var i, j :| 0 <= i < |ns| && 0 <= j < |ns| && ns[i] == n && ns[j] == m;
    assert m == n;
  }

  /** The report fails exactly when an overlay or a needed encoding fails;
      otherwise it lists exactly the findings that some neighbour gives and no
      neighbour with a lower ID gives with the same kind and evidence. */
  lemma ReportIsExact(e: Engine, base: Shape, candidate: Shape, ns: seq<ParcelReference>, tolerance: real, f: Finding)
    requires DistinctKeys(ns, RefId)
    ensures var report := FindingsOf(e, base, candidate, ns, tolerance);
            && (report.Some? <==> forall n :: n in ns ==> Readable(e, base, candidate, n, tolerance))
            && (report.Some? ==> (f in report.value <==> GivenFirst(e, base, candidate, ns, tolerance, f)))
  {
    hide SortedBy, Deduplicated, AgainstAll, Gives, Readable, GivesAlike, DistinctKeys, StrictlyOrdered, Ordered;
    var sorted := SortedBy(ns, RefId);
    SortForgetsOrder(ns, ns, RefId);
    SortedByProperties(ns, RefId);
    SameMembers(sorted, ns);
    AllReadable(e, base, candidate, sorted, tolerance);
    if AgainstAll(e, base, candidate, sorted, tolerance).Some? {
      var all := AgainstAll(e, base, candidate, sorted, tolerance).value;
      DeduplicatedKeepsFirsts(all);
      if f in Deduplicated(all) {
        FirstIsGivenFirst(e, base, candidate, sorted, tolerance, f);
      }
      if GivenFirst(e, base, candidate, ns, tolerance, f) {
        GivenFirstIsKept(e, base, candidate, sorted, tolerance, f);
      }
    }
  }

  // ---- What a reader of the report may conclude ----

  /** Every reported finding names a neighbour that meets its condition. */
  lemma FindingsHaveTheirCause(e: Engine, base: Shape, candidate: Shape, ns: seq<ParcelReference>, tolerance: real, f: Finding)
    requires DistinctKeys(ns, RefId) && FindingsOf(e, base, candidate, ns, tolerance).Some?
    requires f in FindingsOf(e, base, candidate, ns, tolerance).value
    ensures exists n :: n in ns && f.parcelIds == [n.id] &&
              match f.kind
              case Overlap => Overlaps(e, candidate, n, tolerance) && TellsOverlap(e, candidate, n, f)
              case Gap => Recedes(e, base, candidate, n, tolerance) && TellsGap(e, candidate, n, f)
              case DanglingEdge => HardlyTouches(e, candidate, n, tolerance) && TellsDanglingEdge(e, candidate, n, tolerance, f)
  {
    ReportIsExact(e, base, candidate, ns, tolerance, f);
    hide FindingsOf, GivesAlike, DistinctKeys;
  }

  ghost predicate EncodesApart(e: Engine) {
    forall a, b :: e.encode(a).Some? && e.encode(a) == e.encode(b) ==> a == b
  }

  // A finding some neighbour gives has a first one of its kind and evidence in the report.
  lemma Represented(e: Engine, base: Shape, candidate: Shape, ns: seq<ParcelReference>, tolerance: real, n: ParcelReference, f: Finding)
    returns (g: Finding, m: ParcelReference)
    requires DistinctKeys(ns, RefId) && FindingsOf(e, base, candidate, ns, tolerance).Some?
    requires n in ns && Gives(e, base, candidate, n, tolerance, f)
    ensures g in FindingsOf(e, base, candidate, ns, tolerance).value && g.kind == f.kind && g.geometry == f.geometry
    ensures m in ns && m.id <= n.id && Gives(e, base, candidate, m, tolerance, g)
    ensures forall k :: k in ns && k.id < m.id ==> !GivesAlike(e, base, candidate, k, tolerance, f)
  {
    hide FindingsOf, Gives, GivesAlike;
    ReportIsExact(e, base, candidate, ns, tolerance, f);
    assert From(e, base, candidate, n, tolerance, f) by {
      OneNeighbourGives(e, base, candidate, n, tolerance, f);
    }
    RepresentedByLowestNeighbour(e, base, candidate, ns, tolerance, n, f);
    g :| g in FindingsOf(e, base, candidate, ns, tolerance).value && Represents(g, f);
    ReportIsExact(e, base, candidate, ns, tolerance, g);
    m :| m in ns && Gives(e, base, candidate, m, tolerance, g)
      && forall k :: k in ns && k.id < m.id ==> !GivesAlike(e, base, candidate, k, tolerance, g);
    GivenOnce(e, base, candidate, m, tolerance, g, g);
    GivenOnce(e, base, candidate, n, tolerance, f, f);
    AlikeByKey(e, base, candidate, ns, tolerance, f, g);
  }

  lemma AlikeByKey(e: Engine, base: Shape, candidate: Shape, ns: seq<ParcelReference>, tolerance: real, f: Finding, g: Finding)
    requires f.kind == g.kind && f.geometry == g.geometry
    ensures forall k :: k in ns ==> (GivesAlike(e, base, candidate, k, tolerance, f) <==> GivesAlike(e, base, candidate, k, tolerance, g))
  {
    hide Gives;
  }

  /** An overlay larger than the threshold is reported as an overlap, with that
      very overlay as evidence and, when texts tell shapes apart, its area. */
  lemma OverlapsAreReported(e: Engine, base: Shape, candidate: Shape, ns: seq<ParcelReference>, tolerance: real, n: ParcelReference)
    requires DistinctKeys(ns, RefId) && FindingsOf(e, base, candidate, ns, tolerance).Some?
    requires n in ns && Overlaps(e, candidate, n, tolerance)
    ensures exists g, m :: g in FindingsOf(e, base, candidate, ns, tolerance).value && g.kind == Overlap
              && m in ns && m.id <= n.id && g.parcelIds == [m.id]
              && e.encode(e.overlay(candidate, n.polygon.shape).value) == Some(g.geometry)
              && (EncodesApart(e) ==> g.magnitude == e.area(e.overlay(candidate, n.polygon.shape).value))
  {
    hide FindingsOf, GivesAlike;
    var common := e.overlay(candidate, n.polygon.shape).value;
    var f := Finding(Overlap, Shown(e, base, candidate, ns, tolerance, n, common), e.area(common), [n.id]);
    var g, m := Represented(e, base, candidate, ns, tolerance, n, f);
    assert TellsOverlap(e, candidate, m, g);
  }

  // The text of a piece of evidence a successful report needs.
  ghost function Shown(e: Engine, base: Shape, candidate: Shape, ns: seq<ParcelReference>, tolerance: real, n: ParcelReference, s: Shape): (text: string)
    requires DistinctKeys(ns, RefId) && FindingsOf(e, base, candidate, ns, tolerance).Some? && n in ns
    requires (Overlaps(e, candidate, n, tolerance) && e.overlay(candidate, n.polygon.shape) == Some(s))
          || (Recedes(e, base, candidate, n, tolerance) && e.boundary(candidate) == s)
          || (HardlyTouches(e, candidate, n, tolerance) && e.overlay(e.boundary(candidate), e.boundary(n.polygon.shape)) == Some(s))
    ensures e.encode(s) == Some(text)
  {
    ReportIsExact(e, base, candidate, ns, tolerance, Finding(Gap, "", 0.0, []));
    assert Readable(e, base, candidate, n, tolerance);
    e.encode(s).value
  }

  /** A barely touching neighbour is reported as a dangling edge, with the shared
      boundary as evidence and what it falls short of the tolerance. */
  lemma HardlyTouchingIsReported(e: Engine, base: Shape, candidate: Shape, ns: seq<ParcelReference>, tolerance: real, n: ParcelReference)
    requires DistinctKeys(ns, RefId) && FindingsOf(e, base, candidate, ns, tolerance).Some?
    requires n in ns && HardlyTouches(e, candidate, n, tolerance)
    ensures var shared := e.overlay(e.boundary(candidate), e.boundary(n.polygon.shape)).value;
            exists g, m :: g in FindingsOf(e, base, candidate, ns, tolerance).value && g.kind == DanglingEdge
              && m in ns && m.id <= n.id && g.parcelIds == [m.id] && e.encode(shared) == Some(g.geometry)
              && (EncodesApart(e) ==> g.magnitude == tolerance - e.length(shared))
  {
    hide FindingsOf, GivesAlike;
    var shared := e.overlay(e.boundary(candidate), e.boundary(n.polygon.shape)).value;
    var f := Finding(DanglingEdge, Shown(e, base, candidate, ns, tolerance, n, shared), tolerance - e.length(shared), [n.id]);
    var g, m := Represented(e, base, candidate, ns, tolerance, n, f);
    assert TellsDanglingEdge(e, candidate, m, tolerance, g);
  }

  // The first neighbour, by ID, from which the candidate recedes.
  ghost predicate FirstReceding(e: Engine, base: Shape, candidate: Shape, ns: seq<ParcelReference>, tolerance: real, m: ParcelReference) {
    m in ns && Recedes(e, base, candidate, m, tolerance) && forall k :: k in ns && k.id < m.id ==> !Recedes(e, base, candidate, k, tolerance)
  }

  lemma RecedingGivesAlike(e: Engine, base: Shape, candidate: Shape, k: ParcelReference, tolerance: real, f: Finding)
    requires f.kind == Gap && e.encode(e.boundary(candidate)) == Some(f.geometry)
    ensures Recedes(e, base, candidate, k, tolerance) ==> GivesAlike(e, base, candidate, k, tolerance, f)
  {
    if Recedes(e, base, candidate, k, tolerance) {
      assert Gives(e, base, candidate, k, tolerance, f.(magnitude := e.distance(candidate, k.polygon.shape).value, parcelIds := [k.id]));
    }
  }

  /** All gaps share their evidence, so the report holds one gap, of the lowest
      receding neighbour: another neighbour's distance is reported exactly when it
      is the same. */
  lemma OneGapIsReported(e: Engine, base: Shape, candidate: Shape, ns: seq<ParcelReference>, tolerance: real, n: ParcelReference)
    requires DistinctKeys(ns, RefId) && FindingsOf(e, base, candidate, ns, tolerance).Some?
    requires n in ns && Recedes(e, base, candidate, n, tolerance)
    ensures exists m :: FirstReceding(e, base, candidate, ns, tolerance, m) && m.id <= n.id
    ensures forall m :: FirstReceding(e, base, candidate, ns, tolerance, m) ==>
              forall g :: g in FindingsOf(e, base, candidate, ns, tolerance).value && g.kind == Gap <==> TellsGap(e, candidate, m, g)
    ensures var distance := e.distance(candidate, n.polygon.shape).value;
            (exists g :: g in FindingsOf(e, base, candidate, ns, tolerance).value && g.kind == Gap && g.magnitude == distance)
            <==> forall m :: FirstReceding(e, base, candidate, ns, tolerance, m) ==> e.distance(candidate, m.polygon.shape) == Some(distance)
  {
    hide FindingsOf, DistinctKeys;
    var f := Finding(Gap, Shown(e, base, candidate, ns, tolerance, n, e.boundary(candidate)), e.distance(candidate, n.polygon.shape).value, [n.id]);
    var g, m := Represented(e, base, candidate, ns, tolerance, n, f);
    forall k | k in ns && k.id < m.id ensures !Recedes(e, base, candidate, k, tolerance) {
      RecedingGivesAlike(e, base, candidate, k, tolerance, f);
    }
    assert FirstReceding(e, base, candidate, ns, tolerance, m);
    assert TellsGap(e, candidate, m, g);
    hide GivesAlike, GivenFirst;
    forall k | FirstReceding(e, base, candidate, ns, tolerance, k) ensures k == m {
      SameId(ns, k, m);
    }
    forall h ensures h in FindingsOf(e, base, candidate, ns, tolerance).value && h.kind == Gap <==> TellsGap(e, candidate, m, h) {
      if h in FindingsOf(e, base, candidate, ns, tolerance).value && h.kind == Gap {
        SameGap(e, base, candidate, ns, tolerance, g, h);
      }
    }
  }

  lemma SameId(ns: seq<ParcelReference>, k: ParcelReference, m: ParcelReference)
    requires DistinctKeys(ns, RefId) && k in ns && m in ns && k.id == m.id
    ensures k == m
  {
    var i, j :| 0 <= i < |ns| && 0 <= j < |ns| && ns[i] == k && ns[j] == m;
  }

  lemma SameGap(e: Engine, base: Shape, candidate: Shape, ns: seq<ParcelReference>, tolerance: real, g: Finding, h: Finding)
    requires FindingsOf(e, base, candidate, ns, tolerance).Some?
    requires g in FindingsOf(e, base, candidate, ns, tolerance).value && h in FindingsOf(e, base, candidate, ns, tolerance).value
    requires g.kind == Gap && h.kind == Gap
    ensures g == h
  {
    var report := FindingsOf(e, base, candidate, ns, tolerance).value;
    hide FindingsOf;
    var i, j :| 0 <= i < |report| && 0 <= j < |report| && report[i] == g && report[j] == h;
    if i < j {
      ReportHasNoDuplicates(e, base, candidate, ns, tolerance, i, j);
    } else if j < i {
      ReportHasNoDuplicates(e, base, candidate, ns, tolerance, j, i);
    }
  }

  // Shapes that differ, for an engine that measures them apart.
  const BASE := Shape([])
  const MOVED := Shape([[]])
  const NEAR := ParcelReference(1, Polygon([], 1.0, Shape([[], []])))
  const FAR := ParcelReference(2, Polygon([], 1.0, Shape([[], [], []])))

  function Apart(a: Shape, b: Shape): Option<real> {
    Some(if a == BASE then 0.0 else if b == NEAR.polygon.shape then 1.0 else 2.0)
  }

  const MEASURING := Engine(t => None, s => Some("text"), s => true, s => 0.0, s => 0.0, s => s, (a, b) => Some(a), Apart)

  lemma Overshadowed(e: Engine, ns: seq<ParcelReference>, tolerance: real)
    requires e == MEASURING && ns == [NEAR, FAR] && tolerance == 0.5
    ensures Recedes(e, BASE, MOVED, NEAR, tolerance) && Recedes(e, BASE, MOVED, FAR, tolerance)
    ensures Readable(e, BASE, MOVED, NEAR, tolerance) && Readable(e, BASE, MOVED, FAR, tolerance)
    ensures DistinctKeys(ns, RefId) && FirstReceding(e, BASE, MOVED, ns, tolerance, NEAR)
  {
  }

  /** A gap can stay unreported: of two neighbours the parcel recedes from by one
      and by two metres, the report shows one metre only. */
  lemma AGapIsOvershadowed()
    ensures Recedes(MEASURING, BASE, MOVED, FAR, 0.5) && MEASURING.distance(MOVED, FAR.polygon.shape) == Some(2.0)
    ensures var report := FindingsOf(MEASURING, BASE, MOVED, [NEAR, FAR], 0.5);
            report.Some? && forall g :: g in report.value ==> !(g.kind == Gap && g.magnitude == 2.0)
  {
    hide FindingsOf, Readable, FirstReceding, DistinctKeys;
    var ns := [NEAR, FAR];
    Overshadowed(MEASURING, ns, 0.5);
    ReportIsExact(MEASURING, BASE, MOVED, ns, 0.5, Finding(Gap, "", 0.0, []));
    OneGapIsReported(MEASURING, BASE, MOVED, ns, 0.5, FAR);
  }

  // ---- The order of the report ----

  function KindRank(kind: FindingKind): nat {
    match kind
    case Overlap => 0
    case Gap => 1
    case DanglingEdge => 2
  }

  // By neighbour, then overlaps before gaps before dangling edges.
  ghost predicate Precedes(f: Finding, g: Finding) {
    && |f.parcelIds| == |g.parcelIds| == 1
    && (f.parcelIds[0] < g.parcelIds[0] || (f.parcelIds[0] == g.parcelIds[0] && KindRank(f.kind) < KindRank(g.kind)))
  }

  ghost predicate InOrder(fs: seq<Finding>) {
    forall i, j :: 0 <= i < j < |fs| ==> Precedes(fs[i], fs[j])
  }

  lemma OwnFindingsInOrder(e: Engine, base: Shape, candidate: Shape, n: ParcelReference, tolerance: real)
    requires Against(e, base, candidate, n, tolerance).Some?
    ensures InOrder(Against(e, base, candidate, n, tolerance).value)
  {
    hide AreaThreshold;
  }

  lemma {:induction false} AllFindingsInOrder(e: Engine, base: Shape, candidate: Shape, ns: seq<ParcelReference>, tolerance: real)
    requires AgainstAll(e, base, candidate, ns, tolerance).Some? && StrictlyOrdered(ns, RefId)
    ensures InOrder(AgainstAll(e, base, candidate, ns, tolerance).value)
  {
    if ns != [] {
      var front, last := ns[..|ns| - 1], ns[|ns| - 1];
      AllFindingsInOrder(e, base, candidate, front, tolerance);
      OwnFindingsInOrder(e, base, candidate, last, tolerance);
      FindingsFollowNeighbours(e, base, candidate, front, tolerance);
      var own := Against(e, base, candidate, last, tolerance).value;
      forall i | 0 <= i < |own| ensures own[i].parcelIds == [last.id] {
        assert From(e, base, candidate, last, tolerance, own[i]);
        FromNames(e, base, candidate, last, tolerance, own[i]);
      }
      assert front != [] ==> RefId(front[|front| - 1]) < RefId(last);
      assert front == [] ==> AgainstAll(e, base, candidate, front, tolerance) == Some([]);
    }
  }

  lemma {:induction false} KeptInOrder(fs: seq<Finding>)
    requires InOrder(fs)
    ensures InOrder(Deduplicated(fs)) && forall g :: g in Deduplicated(fs) ==> g in fs
  {
    if fs != [] {
      var front, last := fs[..|fs| - 1], fs[|fs| - 1];
      KeptInOrder(front);
      assert fs == front + [last];
      var kept := Deduplicated(front);
      forall i | 0 <= i < |kept| ensures Precedes(kept[i], last) {
        assert kept[i] in front;
        var j :| 0 <= j < |front| && front[j] == kept[i];
        assert fs[j] == kept[i];
      }
    }
  }

  /** The report is ordered by neighbour ID, and for one neighbour it lists the
      overlap, then the gap, then the dangling edge. */
  lemma ReportIsOrdered(e: Engine, base: Shape, candidate: Shape, ns: seq<ParcelReference>, tolerance: real)
    requires DistinctKeys(ns, RefId) && FindingsOf(e, base, candidate, ns, tolerance).Some?
    ensures InOrder(FindingsOf(e, base, candidate, ns, tolerance).value)
  {
    hide SortedBy, AgainstAll, Deduplicated, InOrder, DistinctKeys, StrictlyOrdered;
    var sorted := SortedBy(ns, RefId);
    SortForgetsOrder(ns, ns, RefId);
    AllFindingsInOrder(e, base, candidate, sorted, tolerance);
    KeptInOrder(AgainstAll(e, base, candidate, sorted, tolerance).value);
  }
}
