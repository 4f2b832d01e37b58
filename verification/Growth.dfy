/**
 How the store may change: rows are never deleted, fixed columns never change,
 a row that changes moves forward, and the audit log only grows. Anything a
 client has read stays related to the present by these orders.
 */
module Growth {
  import opened Basics
  import opened Lifecycles
  import opened Records
  import opened Trails

  // Every write bumps the version, so a row with the same version is the same row.
  ghost predicate ProposalLater(a: Proposal, b: Proposal) {
    && b == a.(state := b.state, rationale := b.rationale, version := b.version, reviewedBy := b.reviewedBy)
    && a.version <= b.version
    && (a.version == b.version ==> a == b)
  }

  // ... and a superseded observation is never written again.
  ghost predicate ObservationLater(a: Observation, b: Observation) {
    && b == a.(state := b.state, version := b.version, replacedBy := b.replacedBy, note := b.note)
    && a.version <= b.version
    && (a.version == b.version || a.state == Superseded ==> a == b)
  }

  // Without a version, a conflict changes only by climbing the ranks of its acyclic lifecycle.
  ghost predicate ConflictLater(a: Conflict, b: Conflict) {
    && b == a.(state := b.state, resolvedBy := b.resolvedBy)
    && (a == b || Rank(a.state) < Rank(b.state))
  }

  ghost predicate ParcelLater(a: Parcel, b: Parcel) {
    && b.id == a.id && b.code == a.code && a.version <= b.version
    && (a.version == b.version ==> a == b)
  }

  ghost predicate Later(d: Db, d': Db) {
    && (forall k :: k in d.parcels ==> k in d'.parcels && ParcelLater(d.parcels[k], d'.parcels[k]))
    && (forall k :: k in d.observations ==> k in d'.observations && ObservationLater(d.observations[k], d'.observations[k]))
    && (forall k :: k in d.proposals ==> k in d'.proposals && ProposalLater(d.proposals[k], d'.proposals[k]))
    && (forall k :: k in d.conflicts ==> k in d'.conflicts && ConflictLater(d.conflicts[k], d'.conflicts[k]))
    && (forall k :: k in d.runs ==> k in d'.runs && d'.runs[k] == d.runs[k])
    && d.audits <= d'.audits
  }

  lemma LaterIsReflexive(d: Db)
    ensures Later(d, d)
  {
  }

  lemma LaterIsTransitive(a: Db, b: Db, c: Db)
    requires Later(a, b) && Later(b, c)
    ensures Later(a, c)
  {
    forall k | k in a.parcels ensures k in c.parcels && ParcelLater(a.parcels[k], c.parcels[k]) {
      assert ParcelLater(b.parcels[k], c.parcels[k]);
    }
    forall k | k in a.observations ensures k in c.observations && ObservationLater(a.observations[k], c.observations[k]) {
      assert ObservationLater(b.observations[k], c.observations[k]);
    }
    forall k | k in a.proposals ensures k in c.proposals && ProposalLater(a.proposals[k], c.proposals[k]) {
      assert ProposalLater(b.proposals[k], c.proposals[k]);
    }
    forall k | k in a.conflicts ensures k in c.conflicts && ConflictLater(a.conflicts[k], c.conflicts[k]) {
      assert ConflictLater(b.conflicts[k], c.conflicts[k]);
    }
  }

  // ---- Copies in the hands of clients ----

  // A parcel copy is a version the log records.
  ghost predicate KnownParcel(d: Db, p: Parcel) {
    p.id in d.parcels && ParcelAt(d.audits, p.id, p.version) == Some(p)
  }

  ghost predicate KnownObservation(d: Db, o: Observation) {
    o.id in d.observations && ObservationLater(o, d.observations[o.id])
  }

  ghost predicate KnownProposal(d: Db, p: Proposal) {
    p.id in d.proposals && ProposalLater(p, d.proposals[p.id])
  }

  ghost predicate KnownConflict(d: Db, c: Conflict) {
    c.id in d.conflicts && ConflictLater(c, d.conflicts[c.id])
  }

  lemma ParcelAtIsStable(d: Db, d': Db, id: Id, version: nat)
    requires Later(d, d') && ParcelAt(d.audits, id, version).Some?
    ensures ParcelAt(d'.audits, id, version) == ParcelAt(d.audits, id, version)
  {
    TrailGrows(d.audits, d'.audits, ParcelResource, id);
  }

  lemma CopiesStayKnown(d: Db, d': Db)
    requires Later(d, d')
    ensures forall p :: KnownParcel(d, p) ==> KnownParcel(d', p)
    ensures forall o :: KnownObservation(d, o) ==> KnownObservation(d', o)
    ensures forall p :: KnownProposal(d, p) ==> KnownProposal(d', p)
    ensures forall c :: KnownConflict(d, c) ==> KnownConflict(d', c)
  {
    forall p | KnownParcel(d, p) ensures KnownParcel(d', p) {
      ParcelAtIsStable(d, d', p.id, p.version);
    }
    forall o | KnownObservation(d, o) ensures KnownObservation(d', o) {
      assert ObservationLater(d.observations[o.id], d'.observations[o.id]);
    }
    forall p | KnownProposal(d, p) ensures KnownProposal(d', p) {
      assert ProposalLater(d.proposals[p.id], d'.proposals[p.id]);
    }
    forall c | KnownConflict(d, c) ensures KnownConflict(d', c) {
      assert ConflictLater(d.conflicts[c.id], d'.conflicts[c.id]);
    }
  }
}
