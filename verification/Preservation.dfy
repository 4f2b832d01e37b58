/**
 Every transaction whose request is in order keeps the store in order and only
 moves it forward.
 */
module Preservation {
  import opened Basics
  import opened Lifecycles
  import opened Polygons
  import opened Records
  import opened Transactions
  import opened Trails
  import opened Growth
  import opened Invariants

  // ---- One more entry in a trail ----

  lemma ParcelTrailStep(row: Option<Parcel>, row': Parcel, id: Id, t: seq<AuditEntry>, e: AuditEntry)
    requires ParcelTracked(row, id, t)
    requires e.after.ParcelImage? && e.after.parcel.id == id == row'.id && e.after.parcel.code == row'.code
    requires row.Some? ==> row.value.code == row'.code
    requires row'.version == |t| + 1 && e.after.parcel.(version := row'.version) == row'
    ensures ParcelTracked(Some(row'), id, t + [e])
  {
  }

  lemma ObservationTrailStep(o: Observation, id: Id, t: seq<AuditEntry>, e: AuditEntry,
                             to: ObservationState, replacement: Option<Id>, note: string)
    requires ObservationTracked(Some(o), id, t)
    requires e.action == ObservationMoved && e.before == ObservationImage(o)
    requires e.after == ObservationChange(to, o.version + 1, replacement, note)
    ensures ObservationTracked(Some(MovedObservation(o, to, replacement, note)), id, t + [e])
  {
    assert (t + [e])[..|t|] == t;
  }

  lemma ProposalTrailStep(p: Proposal, id: Id, t: seq<AuditEntry>, e: AuditEntry, to: ProposalState, rationale: string, actor: Actor)
    requires ProposalTracked(Some(p), id, t)
    requires CanProposalTransition(p.state, to) && MayMoveProposal(p.createdBy, to, actor.id, actor.role)
    requires e.action == ProposalMoved && e.actorId == actor.id && e.before == ProposalImage(p)
    requires e.after == ProposalChange(to, p.version + 1)
    ensures ProposalTracked(Some(MovedProposal(p, to, rationale, actor.id)), id, t + [e])
  {
    assert (t + [e])[..|t|] == t;
    TransitionIsNextStage(p.state, to);
    var p' := MovedProposal(p, to, rationale, actor.id);
    assert Erased(p') == Erased(p).(state := p'.state, version := p'.version, reviewedBy := p'.reviewedBy);
  }

  lemma ApplicationsSnoc(t: seq<AuditEntry>, e: AuditEntry)
    ensures Applications(t + [e])
         == Applications(t) + (if e.action == SuggestionApplied && e.after.AppliedChange? then [e.after.proposalId] else [])
  {
    assert (t + [e])[..|t|] == t;
  }

  lemma ConflictTrailStep(c: Conflict, id: Id, t: seq<AuditEntry>, e: AuditEntry, to: ConflictState, actor: Id)
    requires ConflictTracked(Some(c), id, t) && CanConflictTransition(c.state, to)
    requires e.actorId == actor && e.before == ConflictImage(c)
    requires || (e.action == ConflictMoved && e.after == ConflictChange(to))
             || (e.action == SuggestionApplied && to == Resolved && e.after.AppliedChange? && e.after.conflictState == Resolved)
    ensures ConflictTracked(Some(MovedConflict(c, to, Resolver(to, actor))), id, t + [e])
    ensures ConflictLater(c, MovedConflict(c, to, Resolver(to, actor)))
  {
    assert (t + [e])[..|t|] == t;
    ApplicationsSnoc(t, e);
  }

  // ---- What a transaction leaves alone ----

  lemma Unheard(d: Db, d': Db, resource: Resource)
    requires d.audits <= d'.audits && Silent(d'.audits[|d.audits|..], resource)
    ensures forall k: Id :: Trail(d'.audits, resource, k) == Trail(d.audits, resource, k)
  {
    var more := d'.audits[|d.audits|..];
    assert d'.audits == d.audits + more;
    forall k: Id ensures Trail(d'.audits, resource, k) == Trail(d.audits, resource, k) {
      TrailConcat(d.audits, more, resource, k);
      SilentTrail(more, resource, k);
    }
  }

  lemma UntouchedParcels(d: Db, d': Db)
    requires ParcelsOk(d) && d'.parcels == d.parcels && d.audits <= d'.audits && Silent(d'.audits[|d.audits|..], ParcelResource)
    ensures ParcelsOk(d')
  {
    Unheard(d, d', ParcelResource);
  }

  lemma UntouchedObservations(d: Db, d': Db)
    requires ObservationsOk(d) && d'.observations == d.observations
    requires d.audits <= d'.audits && Silent(d'.audits[|d.audits|..], ObservationResource)
    ensures ObservationsOk(d')
  {
    Unheard(d, d', ObservationResource);
  }

  lemma UntouchedProposals(d: Db, d': Db)
    requires ProposalsOk(d) && d'.proposals == d.proposals
    requires d.audits <= d'.audits && Silent(d'.audits[|d.audits|..], ProposalResource)
    ensures ProposalsOk(d') && Origins(d') == Origins(d)
  {
    Unheard(d, d', ProposalResource);
  }

  lemma UntouchedConflicts(d: Db, d': Db)
    requires ConflictsOk(d) && d'.conflicts == d.conflicts
    requires d.audits <= d'.audits && Silent(d'.audits[|d.audits|..], ConflictResource)
    ensures ConflictsOk(d') && Applied(d') == Applied(d)
  {
    Unheard(d, d', ConflictResource);
  }

  lemma LinksKeep(d: Db, d': Db)
    requires LinksOk(d) && d'.observations == d.observations && d.parcels.Keys <= d'.parcels.Keys
    ensures LinksOk(d')
  {
    forall k | k in d'.observations ensures LinkOk(d', k) {
      assert LinkOk(d, k);
    }
  }

  lemma GroundedKeep(lib: Library, d: Db, d': Db)
    requires GroundedOk(lib, d) && Later(d, d')
    requires forall k :: k in d'.proposals && k !in d.proposals ==> Grounded(lib, d', d'.proposals[k])
    ensures GroundedOk(lib, d')
  {
    forall k | k in d'.proposals ensures Grounded(lib, d', d'.proposals[k]) {
      if k in d.proposals {
        GroundedIsStable(lib, d, d', d.proposals[k]);
        assert ProposalLater(d.proposals[k], d'.proposals[k]);
      }
    }
  }

  lemma NumberedDraftGrounded(lib: Library, d: Db, d': Db, p: Proposal, id: Id)
    requires Later(d, d') && Grounded(lib, d, p)
    ensures Grounded(lib, d', p.(id := id))
  {
    GroundedIsStable(lib, d, d', p);
  }

  lemma RunsKeep(d: Db, d': Db)
    requires RunsOk(d) && Later(d, d') && d'.runs == d.runs && d'.conflicts.Keys == d.conflicts.Keys
    ensures RunsOk(d')
  {
    forall k | k in d'.runs ensures RunOk(d', k) {
      assert RunOk(d, k);
      forall i | 0 <= i < |d.runs[k].resultIds| ensures
        var c := d.runs[k].resultIds[i];
        c in d'.conflicts && d'.conflicts[c].proposalId == d.runs[k].proposalId && d'.conflicts[c].inputHash == d.runs[k].inputHash
      {
        assert ConflictLater(d.conflicts[d.runs[k].resultIds[i]], d'.conflicts[d.runs[k].resultIds[i]]);
      }
    }
    forall c | c in d'.conflicts ensures exists k :: k in d'.runs && c in d'.runs[k].resultIds {
      assert c in d.conflicts;
    }
  }

  // The origin of a proposal is its first entry, so it never changes.
  lemma OriginsGrow(d: Db, d': Db)
    requires ProposalsOk(d) && d.audits <= d'.audits && d.proposals.Keys <= d'.proposals.Keys
    ensures forall p :: p in Origins(d) ==> p in Origins(d') && Origins(d')[p] == Origins(d)[p]
  {
    forall p | p in d.proposals ensures Origin(d', p) == Origin(d, p) {
      assert ProposalTracked(Lookup(d.proposals, p), p, Trail(d.audits, ProposalResource, p));
      TrailGrows(d.audits, d'.audits, ProposalResource, p);
    }
  }

  lemma DerivedDraftKeeps(o: map<Id, Option<Action>>, a: map<Id, seq<Id>>, conflict: Id, draft: Id)
    requires OneToOne(o, a) && conflict in a && draft !in o
    ensures OneToOne(o[draft := Some(ProposalDerived)], a[conflict := a[conflict] + [draft]])
  {
    var o', a' := o[draft := Some(ProposalDerived)], a[conflict := a[conflict] + [draft]];
    forall p | p in o' && o'[p] == Some(ProposalDerived) ensures HasSource(a', p) {
      if p == draft {
        assert p in a'[conflict];
      } else {
        assert HasSource(a, p);
        var c :| c in a && p in a[c];
        assert c in a' && p in a'[c];
      }
    }
  }

  lemma OrdinaryProposalKeeps(o: map<Id, Option<Action>>, a: map<Id, seq<Id>>, proposal: Id)
    requires OneToOne(o, a) && proposal !in o
    ensures OneToOne(o[proposal := Some(ProposalCreated)], a)
  {
  }

  // ---- The table a transaction writes ----

  lemma InsertedParcelTracked(d: Db, p: Parcel, actor: Actor, ids: Ids, done: Committed)
    requires ParcelsOk(d) && p.version == 1 && Execute(d, InsertParcel(p), actor, ids) == Ok(done)
    ensures ParcelsOk(done.db)
  {
    hide Trail;
    var d', row := done.db, p.(id := ids.row);
    var e := d'.audits[|d.audits|];
    forall k: Id ensures ParcelTracked(Lookup(d'.parcels, k), k, Trail(d'.audits, ParcelResource, k)) {
      assert ParcelTracked(Lookup(d.parcels, k), k, Trail(d.audits, ParcelResource, k));
      TrailSnoc(d.audits, e, ParcelResource, k);
      if k == ids.row {
        ParcelTrailStep(None, row, k, [], e);
      }
    }
  }

  lemma UpdatedParcelTracked(d: Db, before: Parcel, after: Parcel, expected: nat, actor: Actor, ids: Ids, done: Committed)
    requires ParcelsOk(d) && KnownParcel(d, before) && after.id == before.id && after.code == before.code
    requires Execute(d, UpdateParcel(before, after, expected), actor, ids) == Ok(done)
    ensures ParcelsOk(done.db)
  {
    hide Trail;
    var d', id := done.db, after.id;
    var e := d'.audits[|d.audits|];
    SameVersionIsSameParcel(d, before);
    forall k: Id ensures ParcelTracked(Lookup(d'.parcels, k), k, Trail(d'.audits, ParcelResource, k)) {
      var t := Trail(d.audits, ParcelResource, k);
      assert ParcelTracked(Lookup(d.parcels, k), k, t);
      TrailSnoc(d.audits, e, ParcelResource, k);
      if k == id {
        ParcelTrailStep(Lookup(d.parcels, k), d'.parcels[k], k, t, e);
      }
    }
  }

  lemma ImportedObservationTracked(o: Observation, id: Id, e: AuditEntry)
    requires o.id == id && o.version == 1 && e.action == ObservationImported && e.after == ObservationImage(o)
    ensures ObservationTracked(Some(o), id, [e])
  {
  }

  lemma InsertedObservationTracked(d: Db, o: Observation, actor: Actor, ids: Ids, done: Committed)
    requires ObservationsOk(d) && o.version == 1 && Execute(d, InsertObservation(o), actor, ids) == Ok(done)
    ensures ObservationsOk(done.db)
  {
    hide Trail, ReplayedObservation;
    var d' := done.db;
    var e := d'.audits[|d.audits|];
    forall k: Id ensures ObservationTracked(Lookup(d'.observations, k), k, Trail(d'.audits, ObservationResource, k)) {
      var t := Trail(d.audits, ObservationResource, k);
      assert ObservationTracked(Lookup(d.observations, k), k, t);
      TrailSnoc(d.audits, e, ObservationResource, k);
      if k == ids.row {
        assert t + [e] == [e];
        ImportedObservationTracked(o.(id := ids.row), k, e);
      } else {
        assert t + [] == t;
      }
    }
  }

  lemma MovedObservationTracked(d: Db, item: Observation, to: ObservationState, replacement: Option<Id>, note: string,
                                actor: Actor, ids: Ids, done: Committed)
    requires ObservationsOk(d) && KnownObservation(d, item)
    requires Execute(d, MoveObservation(item, to, replacement, note), actor, ids) == Ok(done)
    ensures ObservationsOk(done.db)
  {
    hide Trail, ReplayedObservation;
    var d' := done.db;
    var e := d'.audits[|d.audits|];
    assert d.observations[item.id] == item;
    forall k: Id ensures ObservationTracked(Lookup(d'.observations, k), k, Trail(d'.audits, ObservationResource, k)) {
      var t := Trail(d.audits, ObservationResource, k);
      assert ObservationTracked(Lookup(d.observations, k), k, t);
      TrailSnoc(d.audits, e, ObservationResource, k);
      if k == item.id {
        ObservationTrailStep(item, k, t, e, to, replacement, note);
      } else {
        assert t + [] == t;
      }
    }
  }

  lemma DraftTracked(p: Proposal, id: Id, e: AuditEntry)
    requires p.id == id && p.state == Draft && p.reviewedBy == None
    requires (e.action == ProposalCreated || e.action == ProposalDerived) && e.after == ProposalImage(p)
    ensures ProposalTracked(Some(p), id, [e])
  {
  }

  lemma InsertedProposalTracked(d: Db, d': Db, row: Proposal, e: AuditEntry)
    requires ProposalsOk(d) && row.id !in d.proposals && row.state == Draft && row.reviewedBy == None
    requires e.resource == ProposalResource && e.resourceId == row.id && e.after == ProposalImage(row)
    requires e.action == ProposalCreated || e.action == ProposalDerived
    requires d'.proposals == d.proposals[row.id := row] && d.audits + [e] <= d'.audits
    requires Silent(d'.audits[|d.audits| + 1..], ProposalResource)
    ensures ProposalsOk(d') && Origins(d') == Origins(d)[row.id := Some(e.action)]
  {
    hide Trail, ReplayedProposal;
    var mid := d.(audits := d.audits + [e]);
    Unheard(mid, d', ProposalResource);
    forall k: Id
      ensures ProposalTracked(Lookup(d'.proposals, k), k, Trail(d'.audits, ProposalResource, k))
      ensures k == row.id ==> Trail(d'.audits, ProposalResource, k) == [e]
    {
      var t := Trail(d.audits, ProposalResource, k);
      assert ProposalTracked(Lookup(d.proposals, k), k, t);
      TrailSnoc(d.audits, e, ProposalResource, k);
      if k == row.id {
        assert t + [e] == [e];
        DraftTracked(row, k, e);
      } else {
        assert t + [] == t;
      }
    }
    OriginsGrow(d, d');
  }

  lemma MovedProposalTracked(d: Db, item: Proposal, to: ProposalState, rationale: string, actor: Actor, ids: Ids, done: Committed)
    requires ProposalsOk(d) && KnownProposal(d, item)
    requires CanProposalTransition(item.state, to) && MayMoveProposal(item.createdBy, to, actor.id, actor.role)
    requires Execute(d, MoveProposal(item, to, rationale), actor, ids) == Ok(done)
    ensures ProposalsOk(done.db) && Origins(done.db) == Origins(d)
  {
    hide Trail, ReplayedProposal, ProposalTracked, CanProposalTransition, MayMoveProposal;
    var d' := done.db;
    var e := d'.audits[|d.audits|];
    assert d.proposals[item.id] == item;
    forall k: Id ensures ProposalTracked(Lookup(d'.proposals, k), k, Trail(d'.audits, ProposalResource, k)) {
      var t := Trail(d.audits, ProposalResource, k);
      assert ProposalTracked(Lookup(d.proposals, k), k, t);
      TrailSnoc(d.audits, e, ProposalResource, k);
      if k == item.id {
        ProposalTrailStep(item, k, t, e, to, rationale, actor);
      } else {
        assert t + [] == t;
      }
    }
    OriginsGrow(d, d');
  }

  // A conflict transition, alone or as the second half of applying a suggestion.
  lemma MovedConflictTracked(d: Db, d': Db, item: Conflict, to: ConflictState, actor: Id, e: AuditEntry)
    requires ConflictsOk(d) && item.id in d.conflicts && d.conflicts[item.id] == item && CanConflictTransition(item.state, to)
    requires e.resource == ConflictResource && e.resourceId == item.id && e.actorId == actor && e.before == ConflictImage(item)
    requires || (e.action == ConflictMoved && e.after == ConflictChange(to))
             || (e.action == SuggestionApplied && to == Resolved && e.after.AppliedChange? && e.after.conflictState == Resolved)
    requires d'.conflicts == d.conflicts[item.id := MovedConflict(item, to, Resolver(to, actor))]
    requires d.audits <= d'.audits && |d.audits| < |d'.audits| && d'.audits[|d'.audits| - 1] == e
    requires Silent(d'.audits[|d.audits|..|d'.audits| - 1], ConflictResource)
    ensures ConflictsOk(d')
    ensures Applied(d') == if e.action == ConflictMoved then Applied(d)
                           else Applied(d)[item.id := Applied(d)[item.id] + [e.after.proposalId]]
    ensures ConflictLater(item, d'.conflicts[item.id])
  {
    hide Trail, ReplayedConflict, Applications, Silent, CanConflictTransition, Resolver, ConflictTracked;
    var mid := d.(audits := d'.audits[..|d'.audits| - 1]);
    assert mid.audits[|d.audits|..] == d'.audits[|d.audits|..|d'.audits| - 1];
    Unheard(d, mid, ConflictResource);
    assert d'.audits == mid.audits + [e];
    forall k: Id
      ensures ConflictTracked(Lookup(d'.conflicts, k), k, Trail(d'.audits, ConflictResource, k))
      ensures AppliedDrafts(d', k)
           == if k == item.id && e.action == SuggestionApplied then AppliedDrafts(d, k) + [e.after.proposalId] else AppliedDrafts(d, k)
    {
      var t := Trail(d.audits, ConflictResource, k);
      assert ConflictTracked(Lookup(d.conflicts, k), k, t);
      TrailSnoc(mid.audits, e, ConflictResource, k);
      if k == item.id {
        ConflictTrailStep(item, k, t, e, to, actor);
        ApplicationsSnoc(t, e);
        assert e.action == ConflictMoved ==> Applications(t) + [] == Applications(t);
      } else {
        assert t + [] == t;
      }
    }
    ConflictTrailStep(item, item.id, Trail(d.audits, ConflictResource, item.id), e, to, actor);
  }

  lemma KeysOfOrigins(d: Db, p: Id, c: Id)
    ensures p in Origins(d) <==> p in d.proposals
    ensures c in Applied(d) <==> c in d.conflicts
  {
  }

  // ---- Each transaction ----

  lemma InsertParcelEffect(d: Db, p: Parcel, actor: Actor, ids: Ids, done: Committed)
    requires Execute(d, InsertParcel(p), actor, ids) == Ok(done)
    ensures Later(d, done.db) && d.parcels.Keys <= done.db.parcels.Keys
    ensures done.db == d.(parcels := done.db.parcels, audits := done.db.audits) && d.audits <= done.db.audits
    ensures forall r: Resource :: r != ParcelResource ==> Silent(done.db.audits[|d.audits|..], r)
  {
    assert done.db.audits[|d.audits|..] == [done.db.audits[|d.audits|]];
  }

  lemma UpdateParcelEffect(d: Db, before: Parcel, after: Parcel, expected: nat, actor: Actor, ids: Ids, done: Committed)
    requires Execute(d, UpdateParcel(before, after, expected), actor, ids) == Ok(done)
    ensures Later(d, done.db) && d.parcels.Keys <= done.db.parcels.Keys
    ensures done.db == d.(parcels := done.db.parcels, audits := done.db.audits) && d.audits <= done.db.audits
    ensures forall r: Resource :: r != ParcelResource ==> Silent(done.db.audits[|d.audits|..], r)
  {
    assert done.db.audits[|d.audits|..] == [done.db.audits[|d.audits|]];
  }

  // Writing one parcel leaves every other table in order.
  lemma ParcelWritten(lib: Library, d: Db, d': Db)
    requires StoreOk(lib, d) && ParcelsOk(d') && Later(d, d') && d.parcels.Keys <= d'.parcels.Keys
    requires d' == d.(parcels := d'.parcels, audits := d'.audits) && d.audits <= d'.audits
    requires forall r: Resource :: r != ParcelResource ==> Silent(d'.audits[|d.audits|..], r)
    ensures StoreOk(lib, d')
  {
    hide Later, Silent, ParcelsOk, ObservationsOk, ProposalsOk, ConflictsOk, LinksOk, GroundedOk, RunsOk, OneToOne, Origins, Applied;
    UntouchedObservations(d, d');
    UntouchedProposals(d, d');
    UntouchedConflicts(d, d');
    LinksKeep(d, d');
    GroundedKeep(lib, d, d');
    RunsKeep(d, d');
  }

  lemma InsertParcelKeeps(lib: Library, d: Db, p: Parcel, actor: Actor, ids: Ids, done: Committed)
    requires StoreOk(lib, d) && TxOk(lib, d, InsertParcel(p), actor)
    requires Execute(d, InsertParcel(p), actor, ids) == Ok(done)
    ensures StoreOk(lib, done.db) && Later(d, done.db)
  {
    hide Execute, Later, Silent, ParcelsOk, ObservationsOk, ProposalsOk, ConflictsOk, LinksOk, GroundedOk, RunsOk, DraftsOk;
    InsertParcelEffect(d, p, actor, ids, done);
    InsertedParcelTracked(d, p, actor, ids, done);
    ParcelWritten(lib, d, done.db);
  }

  lemma UpdateParcelKeeps(lib: Library, d: Db, before: Parcel, after: Parcel, expected: nat, actor: Actor, ids: Ids, done: Committed)
    requires StoreOk(lib, d) && TxOk(lib, d, UpdateParcel(before, after, expected), actor)
    requires Execute(d, UpdateParcel(before, after, expected), actor, ids) == Ok(done)
    ensures StoreOk(lib, done.db) && Later(d, done.db)
  {
    hide Execute, Later, Silent, ParcelsOk, ObservationsOk, ProposalsOk, ConflictsOk, LinksOk, GroundedOk, RunsOk, DraftsOk;
    UpdateParcelEffect(d, before, after, expected, actor, ids, done);
    UpdatedParcelTracked(d, before, after, expected, actor, ids, done);
    ParcelWritten(lib, d, done.db);
  }

  lemma NewObservationLinks(d: Db, d': Db, row: Observation)
    requires LinksOk(d) && d'.parcels == d.parcels && d'.observations == d.observations[row.id := row] && row.id !in d.observations
    requires row.parcelId in d.parcels && row.replacedBy == None
    ensures LinksOk(d')
  {
    forall k | k in d'.observations ensures LinkOk(d', k) {
      if k in d.observations {
        assert LinkOk(d, k);
      }
    }
  }

  lemma InsertObservationEffect(d: Db, o: Observation, actor: Actor, ids: Ids, done: Committed)
    requires Execute(d, InsertObservation(o), actor, ids) == Ok(done)
    ensures ids.row !in d.observations && Later(d, done.db)
    ensures done.db == d.(observations := d.observations[ids.row := o.(id := ids.row)], audits := done.db.audits)
    ensures d.audits <= done.db.audits
    ensures forall r: Resource :: r != ObservationResource ==> Silent(done.db.audits[|d.audits|..], r)
  {
    assert done.db.audits[|d.audits|..] == [done.db.audits[|d.audits|]];
  }

  lemma InsertObservationKeeps(lib: Library, d: Db, o: Observation, actor: Actor, ids: Ids, done: Committed)
    requires StoreOk(lib, d) && TxOk(lib, d, InsertObservation(o), actor)
    requires Execute(d, InsertObservation(o), actor, ids) == Ok(done)
    ensures StoreOk(lib, done.db) && Later(d, done.db)
  {
    hide Execute, Later, Silent, ParcelsOk, ObservationsOk, ProposalsOk, ConflictsOk, LinksOk, GroundedOk, RunsOk, OneToOne, Origins, Applied;
    var d' := done.db;
    InsertObservationEffect(d, o, actor, ids, done);
    InsertedObservationTracked(d, o, actor, ids, done);
    UntouchedParcels(d, d');
    UntouchedProposals(d, d');
    UntouchedConflicts(d, d');
    NewObservationLinks(d, d', o.(id := ids.row));
    GroundedKeep(lib, d, d');
    RunsKeep(d, d');
  }

  lemma MovedObservationLinks(d: Db, d': Db, item: Observation, to: ObservationState, replacement: Option<Id>, note: string)
    requires LinksOk(d) && item.id in d.observations && d.observations[item.id] == item && d'.parcels == d.parcels
    requires CanObservationTransition(item.state, to) && (to == Superseded <==> replacement.Some?) && ReplacementOk(d, item, replacement)
    requires d'.observations == d.observations[item.id := MovedObservation(item, to, replacement, note)]
    ensures LinksOk(d')
  {
    assert LinkOk(d, item.id);
    forall k | k in d'.observations ensures LinkOk(d', k) {
      assert LinkOk(d, k);
    }
  }

  lemma MovedObservationIsLater(d: Db, d': Db, item: Observation, to: ObservationState, replacement: Option<Id>, note: string)
    requires item.id in d.observations && d.observations[item.id] == item && CanObservationTransition(item.state, to)
    requires d' == d.(observations := d.observations[item.id := MovedObservation(item, to, replacement, note)], audits := d'.audits)
    requires d.audits <= d'.audits
    ensures Later(d, d')
  {
    assert ObservationLater(item, MovedObservation(item, to, replacement, note));
    hide MovedObservation;
  }

  lemma MoveObservationEffect(d: Db, item: Observation, to: ObservationState, replacement: Option<Id>, note: string,
                              actor: Actor, ids: Ids, done: Committed)
    requires KnownObservation(d, item) && CanObservationTransition(item.state, to)
    requires Execute(d, MoveObservation(item, to, replacement, note), actor, ids) == Ok(done)
    ensures d.observations[item.id] == item && Later(d, done.db)
    ensures done.db == d.(observations := d.observations[item.id := MovedObservation(item, to, replacement, note)], audits := done.db.audits)
    ensures d.audits <= done.db.audits
    ensures forall r: Resource :: r != ObservationResource ==> Silent(done.db.audits[|d.audits|..], r)
  {
    hide MovedObservation, Later;
    assert done.db.audits[|d.audits|..] == [done.db.audits[|d.audits|]];
    MovedObservationIsLater(d, done.db, item, to, replacement, note);
  }

  lemma MoveObservationKeeps(lib: Library, d: Db, item: Observation, to: ObservationState, replacement: Option<Id>, note: string,
                             actor: Actor, ids: Ids, done: Committed)
    requires StoreOk(lib, d) && TxOk(lib, d, MoveObservation(item, to, replacement, note), actor)
    requires Execute(d, MoveObservation(item, to, replacement, note), actor, ids) == Ok(done)
    ensures StoreOk(lib, done.db) && Later(d, done.db)
  {
    hide Execute, Later, Silent, ParcelsOk, ObservationsOk, ProposalsOk, ConflictsOk, LinksOk, GroundedOk, RunsOk, OneToOne, Origins, Applied;
    var d' := done.db;
    MoveObservationEffect(d, item, to, replacement, note, actor, ids, done);
    MovedObservationTracked(d, item, to, replacement, note, actor, ids, done);
    UntouchedParcels(d, d');
    UntouchedProposals(d, d');
    UntouchedConflicts(d, d');
    MovedObservationLinks(d, d', item, to, replacement, note);
    GroundedKeep(lib, d, d');
    RunsKeep(d, d');
  }

  lemma OneEntry(d: Db, d': Db)
    requires |d'.audits| == |d.audits| + 1 && d.audits <= d'.audits
    ensures forall r: Resource :: r != d'.audits[|d.audits|].resource ==> Silent(d'.audits[|d.audits|..], r)
    ensures Silent(d'.audits[|d.audits|..|d'.audits| - 1], ConflictResource) && Silent(d'.audits[|d.audits| + 1..], ProposalResource)
  {
  }

  lemma InsertProposalEffect(d: Db, p: Proposal, actor: Actor, ids: Ids, done: Committed)
    requires Execute(d, InsertProposal(p), actor, ids) == Ok(done)
    ensures ids.row !in d.proposals && Later(d, done.db)
    ensures done.db == d.(proposals := d.proposals[ids.row := p.(id := ids.row)], audits := done.db.audits)
    ensures |done.db.audits| == |d.audits| + 1 && d.audits <= done.db.audits && d.audits + [done.db.audits[|d.audits|]] <= done.db.audits
    ensures var e := done.db.audits[|d.audits|];
            e.resource == ProposalResource && e.resourceId == ids.row && e.after == ProposalImage(p.(id := ids.row)) && e.action == ProposalCreated
  {
  }

  lemma InsertProposalKeeps(lib: Library, d: Db, p: Proposal, actor: Actor, ids: Ids, done: Committed)
    requires StoreOk(lib, d) && TxOk(lib, d, InsertProposal(p), actor)
    requires Execute(d, InsertProposal(p), actor, ids) == Ok(done)
    ensures StoreOk(lib, done.db) && Later(d, done.db)
  {
    hide Execute, Later, Silent, Grounded, ParcelsOk, ObservationsOk, ProposalsOk, ConflictsOk, LinksOk, GroundedOk, RunsOk, OneToOne, Origins, Applied;
    var d', row := done.db, p.(id := ids.row);
    InsertProposalEffect(d, p, actor, ids, done);
    OneEntry(d, d');
    KeysOfOrigins(d, row.id, row.id);
    InsertedProposalTracked(d, d', row, d'.audits[|d.audits|]);
    UntouchedParcels(d, d');
    UntouchedObservations(d, d');
    UntouchedConflicts(d, d');
    LinksKeep(d, d');
    NumberedDraftGrounded(lib, d, d', p, ids.row);
    GroundedKeep(lib, d, d');
    RunsKeep(d, d');
    OrdinaryProposalKeeps(Origins(d), Applied(d), row.id);
  }

  lemma MoveProposalEffect(d: Db, item: Proposal, to: ProposalState, rationale: string, actor: Actor, ids: Ids, done: Committed)
    requires KnownProposal(d, item)
    requires Execute(d, MoveProposal(item, to, rationale), actor, ids) == Ok(done)
    ensures Later(d, done.db) && done.db.proposals.Keys == d.proposals.Keys
    ensures done.db == d.(proposals := done.db.proposals, audits := done.db.audits) && d.audits <= done.db.audits
    ensures forall r: Resource :: r != ProposalResource ==> Silent(done.db.audits[|d.audits|..], r)
  {
    assert d.proposals[item.id] == item;
    assert done.db.audits[|d.audits|..] == [done.db.audits[|d.audits|]];
  }

  lemma MoveProposalKeeps(lib: Library, d: Db, item: Proposal, to: ProposalState, rationale: string, actor: Actor, ids: Ids, done: Committed)
    requires StoreOk(lib, d) && TxOk(lib, d, MoveProposal(item, to, rationale), actor)
    requires Execute(d, MoveProposal(item, to, rationale), actor, ids) == Ok(done)
    ensures StoreOk(lib, done.db) && Later(d, done.db)
  {
    hide Execute, Later, Silent, ParcelsOk, ObservationsOk, ProposalsOk, ConflictsOk, LinksOk, GroundedOk, RunsOk, OneToOne, Origins, Applied;
    var d' := done.db;
    MoveProposalEffect(d, item, to, rationale, actor, ids, done);
    MovedProposalTracked(d, item, to, rationale, actor, ids, done);
    UntouchedParcels(d, d');
    UntouchedObservations(d, d');
    UntouchedConflicts(d, d');
    LinksKeep(d, d');
    assert forall k :: k in d'.proposals ==> k in d.proposals.Keys;
    GroundedKeep(lib, d, d');
    RunsKeep(d, d');
  }

  lemma MoveConflictEffect(d: Db, item: Conflict, to: ConflictState, actor: Actor, ids: Ids, done: Committed)
    requires KnownConflict(d, item) && CanConflictTransition(item.state, to)
    requires Execute(d, MoveConflict(item, to), actor, ids) == Ok(done)
    ensures d.conflicts[item.id] == item && Later(d, done.db)
    ensures done.db == d.(conflicts := d.conflicts[item.id := MovedConflict(item, to, Resolver(to, actor.id))], audits := done.db.audits)
    ensures |done.db.audits| == |d.audits| + 1 && d.audits <= done.db.audits
    ensures var e := done.db.audits[|d.audits|];
            && e.resource == ConflictResource && e.resourceId == item.id && e.actorId == actor.id && e.before == ConflictImage(item)
            && e.action == ConflictMoved && e.after == ConflictChange(to)
  {
  }

  lemma MoveConflictKeeps(lib: Library, d: Db, item: Conflict, to: ConflictState, actor: Actor, ids: Ids, done: Committed)
    requires StoreOk(lib, d) && TxOk(lib, d, MoveConflict(item, to), actor)
    requires Execute(d, MoveConflict(item, to), actor, ids) == Ok(done)
    ensures StoreOk(lib, done.db) && Later(d, done.db)
  {
    hide Execute, Later, Silent, ParcelsOk, ObservationsOk, ProposalsOk, ConflictsOk, LinksOk, GroundedOk, RunsOk, OneToOne, Origins, Applied;
    var d' := done.db;
    MoveConflictEffect(d, item, to, actor, ids, done);
    OneEntry(d, d');
    MovedConflictTracked(d, d', item, to, actor.id, d'.audits[|d.audits|]);
    UntouchedParcels(d, d');
    UntouchedObservations(d, d');
    UntouchedProposals(d, d');
    LinksKeep(d, d');
    GroundedKeep(lib, d, d');
    RunsKeep(d, d');
  }

  lemma ApplySuggestionEffect(d: Db, item: Conflict, derived: Proposal, actor: Actor, ids: Ids, done: Committed)
    requires KnownConflict(d, item) && item.state == ResolutionProposed
    requires Execute(d, ApplySuggestion(item, derived), actor, ids) == Ok(done)
    ensures d.conflicts[item.id] == item && ids.row !in d.proposals
    ensures done.db == d.(proposals := d.proposals[ids.row := derived.(id := ids.row)],
                          conflicts := d.conflicts[item.id := MovedConflict(item, Resolved, Resolver(Resolved, actor.id))], audits := done.db.audits)
    ensures |done.db.audits| == |d.audits| + 2 && d.audits <= done.db.audits
    ensures var e := done.db.audits[|d.audits|];
            e.resource == ProposalResource && e.resourceId == ids.row && e.after == ProposalImage(derived.(id := ids.row)) && e.action == ProposalDerived
    ensures var f := done.db.audits[|d.audits| + 1];
            && f.resource == ConflictResource && f.resourceId == item.id && f.actorId == actor.id && f.before == ConflictImage(item)
            && f.action == SuggestionApplied && f.after == AppliedChange(Resolved, ids.row)
  {
  }

  lemma ApplySuggestionIsLater(d: Db, d': Db, item: Conflict, row: Proposal, actor: Id)
    requires item.id in d.conflicts && d.conflicts[item.id] == item && item.state == ResolutionProposed && row.id !in d.proposals
    requires d' == d.(proposals := d.proposals[row.id := row], conflicts := d.conflicts[item.id := MovedConflict(item, Resolved, Resolver(Resolved, actor))],
                      audits := d'.audits)
    requires d.audits <= d'.audits
    ensures Later(d, d')
  {
  }

  lemma TwoEntries(d: Db, d': Db, e: AuditEntry, f: AuditEntry)
    requires |d'.audits| == |d.audits| + 2 && d.audits <= d'.audits && d'.audits[|d.audits|] == e && d'.audits[|d.audits| + 1] == f
    requires e.resource == ProposalResource && f.resource == ConflictResource
    ensures d.audits + [e] <= d'.audits
    ensures forall r: Resource :: r != e.resource && r != f.resource ==> Silent(d'.audits[|d.audits|..], r)
    ensures Silent(d'.audits[|d.audits| + 1..], ProposalResource) && Silent(d'.audits[|d.audits|..|d'.audits| - 1], ConflictResource)
  {
  }

  // The store after applying a suggestion, table by table.
  lemma ApplySuggestionMoves(lib: Library, d: Db, item: Conflict, derived: Proposal, actor: Actor, ids: Ids, done: Committed)
    requires ProposalsOk(d) && ConflictsOk(d) && TxOk(lib, d, ApplySuggestion(item, derived), actor)
    requires Execute(d, ApplySuggestion(item, derived), actor, ids) == Ok(done)
    ensures ProposalsOk(done.db) && Origins(done.db) == Origins(d)[ids.row := Some(ProposalDerived)] && ids.row !in Origins(d)
    ensures ConflictsOk(done.db) && item.id in Applied(d) && Applied(done.db) == Applied(d)[item.id := Applied(d)[item.id] + [ids.row]]
    ensures Later(d, done.db)
    ensures Silent(done.db.audits[|d.audits|..], ParcelResource) && Silent(done.db.audits[|d.audits|..], ObservationResource)
  {
    hide Execute, Later, Silent, Grounded, ConflictLater, ProposalsOk, ConflictsOk, Origins, Applied;
    var d', row, n := done.db, derived.(id := ids.row), |d.audits|;
    ApplySuggestionEffect(d, item, derived, actor, ids, done);
    ApplySuggestionIsLater(d, d', item, row, actor.id);
    KeysOfOrigins(d, row.id, item.id);
    TwoEntries(d, d', d'.audits[n], d'.audits[n + 1]);
    InsertedProposalTracked(d, d', row, d'.audits[n]);
    MovedConflictTracked(d, d', item, Resolved, actor.id, d'.audits[n + 1]);
  }

  lemma ApplySuggestionKeeps(lib: Library, d: Db, item: Conflict, derived: Proposal, actor: Actor, ids: Ids, done: Committed)
    requires StoreOk(lib, d) && TxOk(lib, d, ApplySuggestion(item, derived), actor)
    requires Execute(d, ApplySuggestion(item, derived), actor, ids) == Ok(done)
    ensures StoreOk(lib, done.db) && Later(d, done.db)
  {
    hide Trail, Grounded, ParcelsOk, ObservationsOk, ProposalsOk, ConflictsOk, LinksOk, GroundedOk, RunsOk, OneToOne, Origins, Applied;
    var d' := done.db;
    ApplySuggestionMoves(lib, d, item, derived, actor, ids, done);
    hide Later;
    UntouchedParcels(d, d');
    UntouchedObservations(d, d');
    LinksKeep(d, d');
    NumberedDraftGrounded(lib, d, d', derived, ids.row);
    GroundedKeep(lib, d, d');
    RunsKeep(d, d');
    DerivedDraftKeeps(Origins(d), Applied(d), item.id, ids.row);
  }
}
