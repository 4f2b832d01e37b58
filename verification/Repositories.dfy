/**
 The store as an object: one table per entity, changed in place by the
 repository methods, and restored as a whole when a transaction rolls back.
 */
module Repositories {
  import opened Basics
  import opened Text
  import opened ParcelIds
  import opened Lifecycles
  import opened Records
  import opened Transactions
  import opened Protocol

  // The optional columns of a proposal transition.
  datatype ProposalUpdates = ProposalUpdates(rationale: Option<string>, reviewedBy: Option<Id>)

  // The primary keys: each row is stored under its own ID.
  ghost predicate Keyed(d: Db) {
    && (forall k :: k in d.parcels ==> d.parcels[k].id == k)
    && (forall k :: k in d.observations ==> d.observations[k].id == k)
    && (forall k :: k in d.proposals ==> d.proposals[k].id == k)
    && (forall k :: k in d.conflicts ==> d.conflicts[k].id == k)
    && (forall k :: k in d.runs ==> d.runs[k].id == k)
  }

  class Store {
    var parcels: map<Id, Parcel>
    var observations: map<Id, Observation>
    var proposals: map<Id, Proposal>
    var conflicts: map<Id, Conflict>
    var runs: map<Id, DetectionRun>
    var audits: seq<AuditEntry>

    constructor ()
      ensures Valid() && Contents() == EMPTY_DB
    {
      parcels, observations, proposals, conflicts, runs, audits := map[], map[], map[], map[], map[], [];
    }

    function Contents(): Db
      reads this
    {
      Db(parcels, observations, proposals, conflicts, runs, audits)
    }

    ghost predicate Valid()
      reads this
    {
      Keyed(Contents())
    }

    // The end of a failed transaction: every table is as it was when it began.
    method Rollback(saved: Db)
      requires Keyed(saved)
      modifies this
      ensures Valid() && Contents() == saved
    {
      parcels, observations, proposals := saved.parcels, saved.observations, saved.proposals;
      conflicts, runs, audits := saved.conflicts, saved.runs, saved.audits;
    }

    // ---- Parcels ----

    method CreateParcel(item: Parcel, id: Id) returns (ok: bool, stored: Parcel)
      requires Valid()
      modifies this`parcels
      ensures Valid()
      ensures ok <==> id !in old(parcels)
      ensures stored == item.(id := id)
      ensures parcels == if ok then old(parcels)[id := stored] else old(parcels)
    {
      stored := item.(id := id);
      ok := id !in parcels;
      if ok { parcels := parcels[id := stored]; }
    }

    method UpdateParcel(item: Parcel, version: nat) returns (ok: bool)
      requires Valid()
      modifies this`parcels
      ensures Valid()
      ensures ok <==> ParcelMatches(old(Contents()), item.id, version)
      ensures parcels == if ok then old(parcels)[item.id := OverwrittenParcel(old(parcels)[item.id], item)] else old(parcels)
    {
      ok := item.id in parcels && parcels[item.id].version == version;
      if ok {
        var row := parcels[item.id];
        row := row.(name := item.name, boundary := item.boundary, crs := item.crs);
        row := row.(owner := item.owner, state := item.state, area := item.area);
        parcels := parcels[item.id := row.(version := row.version + 1)];
      }
    }

    // Active parcels of the coordinate system, by ID, without the excluded one.
    method ListActiveByCoordinateSystem(crs: string, excluded: Id) returns (items: seq<Parcel>)
      ensures items == ActiveNeighbours(Contents(), crs, excluded)
    {
      var ids := Ascending(set k | k in parcels && parcels[k].crs == crs && parcels[k].state == "active" && k != excluded);
      items := [];
      for i := 0 to |ids|
        invariant |items| == i && forall j :: 0 <= j < i ==> ids[j] in parcels && items[j] == parcels[ids[j]]
      {
        assert ids[i] in ids;
        items := items + [parcels[ids[i]]];
      }
    }

    // ---- Observations ----

    method CreateObservation(item: Observation, id: Id) returns (ok: bool, stored: Observation)
      requires Valid()
      modifies this`observations
      ensures Valid()
      ensures ok <==> !ObservationCodeTaken(old(Contents()), item.code) && id !in old(observations)
      ensures stored == item.(id := id)
      ensures observations == if ok then old(observations)[id := stored] else old(observations)
    {
      stored := item.(id := id);
      ok := id !in observations && forall k | k in observations :: observations[k].code != item.code;
      if ok { observations := observations[id := stored]; }
    }

    method TransitionObservation(id: Id, version: nat, to: ObservationState, replacement: Option<Id>, note: string) returns (ok: bool)
      requires Valid()
      modifies this`observations
      ensures Valid()
      ensures ok <==> ObservationMatches(old(Contents()), id, version)
      ensures observations == if ok then old(observations)[id := MovedObservation(old(observations)[id], to, replacement, note)] else old(observations)
    {
      ok := id in observations && observations[id].version == version;
      if ok {
        var row := observations[id].(state := to, version := version + 1);
        if replacement.Some? { row := row.(replacedBy := replacement); }
        if TrimSpace(note) != "" { row := row.(note := note); }
        observations := observations[id := row];
      }
    }

    // ---- Proposals ----

    method CreateProposal(item: Proposal, id: Id) returns (ok: bool, stored: Proposal)
      requires Valid()
      modifies this`proposals
      ensures Valid()
      ensures ok <==> id !in old(proposals)
      ensures stored == item.(id := id)
      ensures proposals == if ok then old(proposals)[id := stored] else old(proposals)
    {
      stored := item.(id := id);
      ok := id !in proposals;
      if ok { proposals := proposals[id := stored]; }
    }

    method TransitionProposal(id: Id, version: nat, from: ProposalState, to: ProposalState, updates: ProposalUpdates) returns (ok: bool)
      requires Valid()
      modifies this`proposals
      ensures Valid()
      ensures ok <==> ProposalMatches(old(Contents()), id, version, from)
      ensures !ok ==> proposals == old(proposals)
      ensures ok ==>
        var row := old(proposals)[id];
        proposals == old(proposals)[id := row.(
          state := to, version := row.version + 1,
          rationale := if updates.rationale.Some? then updates.rationale.value else row.rationale,
          reviewedBy := if updates.reviewedBy.Some? then updates.reviewedBy else row.reviewedBy)]
    {
      ok := id in proposals && proposals[id].version == version && proposals[id].state == from;
      if ok {
        var row := proposals[id].(state := to, version := version + 1);
        if updates.rationale.Some? { row := row.(rationale := updates.rationale.value); }
        if updates.reviewedBy.Some? { row := row.(reviewedBy := updates.reviewedBy); }
        proposals := proposals[id := row];
      }
    }

    // ---- Conflicts ----

    // Without an ID to hand out, the database refuses the row.
    method CreateConflict(item: Conflict, id: Option<Id>) returns (ok: bool, stored: Conflict)
      requires Valid()
      modifies this`conflicts
      ensures Valid()
      ensures ok <==> id.Some? && id.value !in old(conflicts)
      ensures ok ==> stored == item.(id := id.value) && conflicts == old(conflicts)[id.value := stored]
      ensures !ok ==> conflicts == old(conflicts)
    {
      stored := item;
      ok := id.Some? && id.value !in conflicts;
      if ok {
        stored := item.(id := id.value);
        conflicts := conflicts[id.value := stored];
      }
    }

    method TransitionConflict(id: Id, from: ConflictState, to: ConflictState, resolver: Option<Id>) returns (ok: bool)
      requires Valid()
      modifies this`conflicts
      ensures Valid()
      ensures ok <==> ConflictMatches(old(Contents()), id, from)
      ensures conflicts == if ok then old(conflicts)[id := MovedConflict(old(conflicts)[id], to, resolver)] else old(conflicts)
    {
      ok := id in conflicts && conflicts[id].state == from;
      if ok {
        var row := conflicts[id].(state := to);
        if resolver.Some? { row := row.(resolvedBy := resolver); }
        conflicts := conflicts[id := row];
      }
    }

    // The rows with these IDs, in the order of the IDs; None as soon as one is missing.
    method ListConflictsByIDs(ids: seq<Id>) returns (ordered: Option<seq<Conflict>>)
      ensures ordered == ConflictsByIds(conflicts, ids)
    {
      var found := map k | k in conflicts && k in ids :: conflicts[k];
      var rows: seq<Conflict> := [];
      for i := 0 to |ids|
        invariant ConflictsByIds(conflicts, ids[..i]) == Some(rows)
      {
        assert ids[..i + 1][..i] == ids[..i];
        if ids[i] !in found {
          MissingConflict(conflicts, ids, i);
          return None;
        }
        rows := rows + [found[ids[i]]];
      }
      assert ids[..|ids|] == ids;
      return Some(rows);
    }

    // ---- Detection runs ----

    method FindRunByActorKey(actorId: Id, key: string) returns (run: Option<DetectionRun>)
      ensures run == RunOf(Contents(), actorId, key)
    {
      var matching := set k | k in runs && runs[k].actorId == actorId && runs[k].key == key;
      if matching == {} { return None; }
      return Some(runs[Ascending(matching)[0]]);
    }

    // Actor and key are unique together.
    method CreateRun(item: DetectionRun, id: Id) returns (ok: bool, stored: DetectionRun)
      requires Valid()
      modifies this`runs
      ensures Valid()
      ensures ok <==> !RunKeyTaken(old(Contents()), item.actorId, item.key) && id !in old(runs)
      ensures stored == item.(id := id)
      ensures runs == if ok then old(runs)[id := stored] else old(runs)
    {
      stored := item.(id := id);
      ok := id !in runs && forall k | k in runs :: runs[k].actorId != item.actorId || runs[k].key != item.key;
      if ok { runs := runs[id := stored]; }
    }

    // ---- Audit log ----

    method CreateAudit(entry: AuditEntry) returns (ok: bool)
      requires Valid()
      modifies this`audits
      ensures Valid()
      ensures ok <==> !Blank(entry.requestId)
      ensures audits == if ok then old(audits) + [entry] else old(audits)
    {
      ok := TrimSpace(entry.requestId) != "";
      if ok { audits := audits + [entry]; }
    }
  }

  lemma {:induction false} MissingConflict(table: map<Id, Conflict>, ids: seq<Id>, i: nat)
    requires i < |ids| && ids[i] !in table
    ensures ConflictsByIds(table, ids).None?
    decreases |ids|
  {
    var n := |ids| - 1;
    if i < n {
      MissingConflict(table, ids[..n], i);
    }
  }
}
