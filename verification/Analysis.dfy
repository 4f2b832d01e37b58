/**
 One detection run on the rows it has read: snap, compare with the neighbours,
 and hash everything the result depends on.
 */
module Analysis {
  import opened Basics
  import opened Text
  import opened Framing
  import opened ParcelIds
  import opened Lifecycles
  import opened Polygons
  import opened Snapping
  import opened Topology
  import opened Records

  const ALGORITHM := "parcelgraph-topology-2.0"

  function Metres(m: Micrometres): real {
    m as real / 1000000.0
  }

  // The tolerance a detection works with: the proposal's own when the request names none.
  function EffectiveTolerance(requested: Micrometres, proposal: Proposal): Micrometres {
    if requested == 0 then proposal.tolerance else requested
  }

  function RequestParts(proposalId: Id, tolerance: Micrometres): seq<string> {
    [Decimal(proposalId), SixDecimals(tolerance)]
  }

  function RequestHash(lib: Library, proposalId: Id, tolerance: Micrometres): string {
    lib.digest(Frame(RequestParts(proposalId, tolerance)))
  }

  function NeighbourParts(neighbours: seq<Parcel>): seq<string> {
    if neighbours == [] then []
    else
      var last := neighbours[|neighbours| - 1];
      NeighbourParts(neighbours[..|neighbours| - 1]) + [Decimal(last.id), last.boundary]
  }

  function InputParts(parcel: Parcel, proposal: Proposal, neighbours: seq<Parcel>, tolerance: Micrometres): seq<string> {
    [parcel.boundary, proposal.boundary, parcel.crs, SixDecimals(tolerance), ALGORITHM] + NeighbourParts(neighbours)
  }

  function InputHash(lib: Library, parcel: Parcel, proposal: Proposal, neighbours: seq<Parcel>, tolerance: Micrometres): string {
    lib.digest(Frame(InputParts(parcel, proposal, neighbours, tolerance)))
  }

  function References(lib: Library, neighbours: seq<Parcel>): Option<seq<ParcelReference>> {
    if neighbours == [] then Some([])
    else
      var n := |neighbours| - 1;
      var front, polygon := References(lib, neighbours[..n]), Parsed(lib.engine, neighbours[n].boundary);
      if front.None? || polygon.None? then None else Some(front.value + [ParcelReference(neighbours[n].id, polygon.value)])
  }

  lemma {:induction false} BadNeighbour(lib: Library, neighbours: seq<Parcel>, i: nat)
    requires i < |neighbours| && Parsed(lib.engine, neighbours[i].boundary).None?
    ensures References(lib, neighbours).None?
    decreases |neighbours|
  {
    var n := |neighbours| - 1;
    if i < n {
      BadNeighbour(lib, neighbours[..n], i);
    }
  }

  function PolygonsOf(references: seq<ParcelReference>): seq<Polygon> {
    seq(|references|, i requires 0 <= i < |references| => references[i].polygon)
  }

  datatype Outcome = Outcome(suggestion: string, findings: seq<Finding>)

  // The geometry of a run. It sees texts, IDs and the tolerance, and nothing else of the rows.
  function Compute(lib: Library, base: string, proposed: string, neighbours: seq<Parcel>, tolerance: Micrometres): Result<Outcome, Error> {
    var basePolygon, candidate := Parsed(lib.engine, base), Parsed(lib.engine, proposed);
    if basePolygon.None? || candidate.None? then Err(GeometryRejected)
    else
      var references := References(lib, neighbours);
      if references.None? then Err(Internal)
      else
        var snapped := Snapped(lib.engine, candidate.value, [basePolygon.value] + PolygonsOf(references.value), Metres(tolerance));
        if snapped.None? then Err(GeometryRejected)
        else
          var findings := FindingsOf(lib.engine, basePolygon.value.shape, snapped.value.polygon.shape, references.value, Metres(tolerance));
          if findings.None? then Err(Internal) else Ok(Outcome(snapped.value.suggested, findings.value))
  }

  // The snapped boundary and the findings of a run, in the terms of the geometry package.
  ghost predicate Found(lib: Library, base: string, proposed: string, neighbours: seq<Parcel>, tolerance: Micrometres, outcome: Outcome) {
    var b, candidate, references := Parsed(lib.engine, base), Parsed(lib.engine, proposed), References(lib, neighbours);
    && b.Some? && candidate.Some? && references.Some?
    && var snapped := Snapped(lib.engine, candidate.value, [b.value] + PolygonsOf(references.value), Metres(tolerance));
       && snapped.Some? && outcome.suggestion == snapped.value.suggested
       && FindingsOf(lib.engine, b.value.shape, snapped.value.polygon.shape, references.value, Metres(tolerance)) == Some(outcome.findings)
  }

  // The analysis succeeds exactly with what snapping and detection find.
  lemma ComputedIsFound(lib: Library, base: string, proposed: string, neighbours: seq<Parcel>, tolerance: Micrometres, outcome: Outcome)
    ensures Compute(lib, base, proposed, neighbours, tolerance) == Ok(outcome) <==> Found(lib, base, proposed, neighbours, tolerance, outcome)
  {
    hide Snapped, FindingsOf;
  }

  function NewConflict(parcel: Parcel, proposal: Proposal, inputHash: string, suggestion: string, f: Finding): Conflict {
    Conflict(0, proposal.id, UniqueSorted([parcel.id] + f.parcelIds), f.kind, f.geometry, f.magnitude,
             inputHash, Detected, suggestion, None)
  }

  function NewConflicts(parcel: Parcel, proposal: Proposal, inputHash: string, outcome: Outcome): seq<Conflict> {
    seq(|outcome.findings|, i requires 0 <= i < |outcome.findings| =>
      NewConflict(parcel, proposal, inputHash, outcome.suggestion, outcome.findings[i]))
  }

  /** The participants of a conflict: the parcel and the finding's neighbours,
      each once, in ascending order. */
  lemma ParticipantsAreListedOnce(parcel: Parcel, proposal: Proposal, inputHash: string, suggestion: string, f: Finding)
    ensures var ids := NewConflict(parcel, proposal, inputHash, suggestion, f).parcelIds;
            Increasing(ids) && forall x :: x in ids <==> x == parcel.id || x in f.parcelIds
  {
    assert forall x :: x in [parcel.id] + f.parcelIds <==> x == parcel.id || x in f.parcelIds;
  }

  // ---- What the hashes determine ----

  ghost predicate TextsNulFree(parcel: Parcel, proposal: Proposal, neighbours: seq<Parcel>) {
    && NulFree(parcel.boundary) && NulFree(proposal.boundary) && NulFree(parcel.crs)
    && forall i :: 0 <= i < |neighbours| ==> NulFree(neighbours[i].boundary)
  }

  ghost predicate SameNeighbours(a: seq<Parcel>, b: seq<Parcel>) {
    |a| == |b| && forall i :: 0 <= i < |a| ==> a[i].id == b[i].id && a[i].boundary == b[i].boundary
  }

  lemma {:induction false} NeighbourPartsNulFree(ns: seq<Parcel>)
    requires forall i :: 0 <= i < |ns| ==> NulFree(ns[i].boundary)
    ensures AllNulFree(NeighbourParts(ns)) && |NeighbourParts(ns)| == 2 * |ns|
  {
    if ns != [] {
      NeighbourPartsNulFree(ns[..|ns| - 1]);
      DecimalReads(ns[|ns| - 1].id);
    }
  }

  lemma {:induction false} NeighbourPartsInjective(a: seq<Parcel>, b: seq<Parcel>)
    requires NeighbourParts(a) == NeighbourParts(b) && |a| == |b|
    ensures SameNeighbours(a, b)
  {
    if a != [] {
      var n := |a| - 1;
      var pa, pb := NeighbourParts(a), NeighbourParts(b);
      assert pa[..|pa| - 2] == NeighbourParts(a[..n]) && pb[..|pb| - 2] == NeighbourParts(b[..n]);
      NeighbourPartsInjective(a[..n], b[..n]);
      assert pa[|pa| - 2] == Decimal(a[n].id) && pb[|pb| - 2] == Decimal(b[n].id);
      DecimalInjective(a[n].id, b[n].id);
      assert pa[|pa| - 1] == a[n].boundary && pb[|pb| - 1] == b[n].boundary;
      forall i | 0 <= i < |a| ensures a[i].id == b[i].id && a[i].boundary == b[i].boundary {
        if i < n {
          assert a[..n][i] == a[i] && b[..n][i] == b[i];
        }
      }
    }
  }

  lemma {:induction false} ReferencesSeeTextsOnly(lib: Library, a: seq<Parcel>, b: seq<Parcel>)
    requires SameNeighbours(a, b)
    ensures References(lib, a) == References(lib, b)
  {
    if a != [] {
      ReferencesSeeTextsOnly(lib, a[..|a| - 1], b[..|b| - 1]);
    }
  }

  /** Two runs that feed the same bytes to the input hash worked on the same
      boundaries, CRS, tolerance and ordered neighbours, and so found the same. */
  lemma InputPreimageDeterminesFindings(lib: Library, p1: Parcel, q1: Proposal, n1: seq<Parcel>, t1: Micrometres,
                                        p2: Parcel, q2: Proposal, n2: seq<Parcel>, t2: Micrometres)
    requires TextsNulFree(p1, q1, n1) && TextsNulFree(p2, q2, n2)
    requires Frame(InputParts(p1, q1, n1, t1)) == Frame(InputParts(p2, q2, n2, t2))
    ensures p1.boundary == p2.boundary && q1.boundary == q2.boundary && p1.crs == p2.crs && t1 == t2
    ensures SameNeighbours(n1, n2)
    ensures Compute(lib, p1.boundary, q1.boundary, n1, t1) == Compute(lib, p2.boundary, q2.boundary, n2, t2)
  {
    var a, b := InputParts(p1, q1, n1, t1), InputParts(p2, q2, n2, t2);
    NeighbourPartsNulFree(n1);
    NeighbourPartsNulFree(n2);
    SixDecimalsParts(t1);
    SixDecimalsParts(t2);
    assert NulFree(ALGORITHM);
    FrameInjective(a, b);
    assert a[0] == b[0] && a[1] == b[1] && a[2] == b[2] && a[3] == b[3];
    SixDecimalsInjective(t1, t2);
    assert a[5..] == NeighbourParts(n1) && b[5..] == NeighbourParts(n2);
    NeighbourPartsInjective(n1, n2);
    ReferencesSeeTextsOnly(lib, n1, n2);
  }

  // Collisions and NUL characters are ruled out: SHA-256, JSON text and coordinate system codes.
  ghost predicate Textual(lib: Library) {
    && (forall x, y :: lib.digest(x) == lib.digest(y) ==> x == y)
    && (forall t :: lib.engine.decode(t).Some? ==> NulFree(t))
    && (forall t :: lib.crsAccepted(t) ==> NulFree(lib.upper(TrimSpace(t))))
  }

  lemma FoundTextsAreNulFree(lib: Library, parcel: Parcel, proposal: Proposal, neighbours: seq<Parcel>, tolerance: Micrometres, outcome: Outcome)
    requires Textual(lib) && NulFree(parcel.crs) && Found(lib, parcel.boundary, proposal.boundary, neighbours, tolerance, outcome)
    ensures TextsNulFree(parcel, proposal, neighbours)
  {
    hide Snapped, FindingsOf;
    forall i | 0 <= i < |neighbours| ensures NulFree(neighbours[i].boundary) {
      if Parsed(lib.engine, neighbours[i].boundary).None? {
        BadNeighbour(lib, neighbours, i);
      }
    }
  }

  /** With such a library, two successful analyses with the same input hash worked
      on the same texts and neighbours, and found the same. */
  lemma InputHashDeterminesFindings(lib: Library, p1: Parcel, q1: Proposal, n1: seq<Parcel>, t1: Micrometres, o1: Outcome,
                                    p2: Parcel, q2: Proposal, n2: seq<Parcel>, t2: Micrometres, o2: Outcome)
    requires Textual(lib) && NulFree(p1.crs) && NulFree(p2.crs)
    requires Found(lib, p1.boundary, q1.boundary, n1, t1, o1) && Found(lib, p2.boundary, q2.boundary, n2, t2, o2)
    requires InputHash(lib, p1, q1, n1, t1) == InputHash(lib, p2, q2, n2, t2)
    ensures p1.boundary == p2.boundary && q1.boundary == q2.boundary && p1.crs == p2.crs && t1 == t2 && SameNeighbours(n1, n2) && o1 == o2
  {
    hide Found, Compute;
    FoundTextsAreNulFree(lib, p1, q1, n1, t1, o1);
    FoundTextsAreNulFree(lib, p2, q2, n2, t2, o2);
    InputPreimageDeterminesFindings(lib, p1, q1, n1, t1, p2, q2, n2, t2);
    ComputedIsFound(lib, p1.boundary, q1.boundary, n1, t1, o1);
    ComputedIsFound(lib, p2.boundary, q2.boundary, n2, t2, o2);
  }

  /** With a collision-free digest, two requests share a request hash exactly
      when they name the same proposal and the same tolerance. */
  lemma RequestHashNamesTheRequest(lib: Library, p1: Id, t1: Micrometres, p2: Id, t2: Micrometres)
    requires forall x, y :: lib.digest(x) == lib.digest(y) ==> x == y
    ensures RequestHash(lib, p1, t1) == RequestHash(lib, p2, t2) <==> p1 == p2 && t1 == t2
  {
    if RequestHash(lib, p1, t1) == RequestHash(lib, p2, t2) {
      var a, b := RequestParts(p1, t1), RequestParts(p2, t2);
      DecimalReads(p1);
      DecimalReads(p2);
      SixDecimalsParts(t1);
      SixDecimalsParts(t2);
      assert lib.digest(Frame(a)) == lib.digest(Frame(b));
      FrameInjective(a, b);
      assert a[0] == b[0] && a[1] == b[1];
      DecimalInjective(p1, p2);
      SixDecimalsInjective(t1, t2);
    }
  }
}
