/**
 What a committed request has done, said of the rows before and after and of
 the request alone, whatever other requests did while it was under way.
 */
module Effects {
  import opened Basics
  import Text
  import opened ParcelIds
  import opened Lifecycles
  import opened Polygons
  import opened Records
  import opened Analysis
  import opened Transactions
  import opened Protocol
  import opened Trails
  import opened Growth
  import opened Invariants
  import opened Preservation
  import opened DetectionWrites
  import opened Interleaving
  import opened Refinement
  import opened Idempotency
  import opened ExactlyOnce
  import opened Reviews

  // ---- New parcels and observations ----

  ghost predicate ParcelRegistered(lib: Library, d: Db, d': Db, n: NewParcel, id: Id) {
    && id !in d.parcels && id in d'.parcels && d' == d.(parcels := d.parcels[id := d'.parcels[id]], audits := d'.audits)
    && lib.crsAccepted(n.crs) && Parsed(lib.engine, n.boundary).Some?
    && var row := d'.parcels[id];
       && row.id == id && row.version == 1 && row.area == Parsed(lib.engine, n.boundary).value.area
       && row.boundary == n.boundary && row.crs == lib.upper(Text.TrimSpace(n.crs))
       && row.code == Text.TrimSpace(n.code) && row.name == Text.TrimSpace(n.name) && row.owner == Text.TrimSpace(n.owner)
       && (forall k :: k in d.parcels ==> d.parcels[k].code != row.code)
       && row.state == if n.state == "" then "active" else n.state
  }

  ghost predicate ObservationRegistered(lib: Library, d: Db, d': Db, n: NewObservation, actor: Actor, id: Id) {
    && id !in d.observations && id in d'.observations && d' == d.(observations := d.observations[id := d'.observations[id]], audits := d'.audits)
    && n.parcelId in d.parcels && lib.pointAccepted(n.evidence.point)
    && var row := d'.observations[id];
       && row.id == id && row.parcelId == n.parcelId && row.version == 1 && row.replacedBy == None && row.importedBy == actor.id
       && row.code == Text.TrimSpace(n.code) && (forall k :: k in d.observations ==> d.observations[k].code != row.code)
       && row.evidence.point == n.evidence.point && row.evidence.accuracy == n.evidence.accuracy
       && row.evidence.observedAt == n.evidence.observedAt && row.evidence.technique == Text.TrimSpace(n.evidence.technique)
       && row.evidence.checksum == Text.TrimSpace(n.evidence.checksum) && row.note == Text.TrimSpace(n.note)
       && row.state == if n.state.Some? then n.state.value else Usable
  }

  // ---- Transitions ----

  ghost predicate ObservationTransitioned(d: Db, d': Db, id: Id, m: ObservationMove, actor: Actor) {
    && id in d.observations && id in d'.observations && d' == d.(observations := d.observations[id := d'.observations[id]], audits := d'.audits)
    && var before, after := d.observations[id], d'.observations[id];
       && before.version == m.version && after.version == m.version + 1
       && (before.state, m.to) in OBSERVATION_STEPS && after.state == m.to
       && (actor.role == Surveyor || actor.role == GisAnalyst || actor.role == Admin)
       && after.replacedBy == m.replacement && (m.to == Superseded <==> m.replacement.Some?)
       && (m.to == Superseded ==> m.replacement.value != id && m.replacement.value in d.observations
                                  && d.observations[m.replacement.value].parcelId == before.parcelId)
       && after.note == (if Text.Blank(m.note) then before.note else Text.TrimSpace(m.note))
       && after.parcelId == before.parcelId && after.code == before.code && after.evidence == before.evidence
  }

  ghost predicate ProposalTransitioned(d: Db, d': Db, id: Id, m: ProposalMove, actor: Actor) {
    && id in d.proposals && id in d'.proposals && d' == d.(proposals := d.proposals[id := d'.proposals[id]], audits := d'.audits)
    && var before, after := d.proposals[id], d'.proposals[id];
       && (before.state, m.to) in PROPOSAL_STEPS && after.state == m.to && after.version == before.version + 1
       && (m.to in AUTHORING ==> actor.id == before.createdBy || actor.role == Admin)
       && (m.to in REVIEWING ==> (actor.role == Reviewer || actor.role == Admin) && actor.id != before.createdBy)
       && after.rationale == (if m.rationale == "" then before.rationale else m.rationale)
       && after.reviewedBy == (if m.to in REVIEWING then Some(actor.id) else before.reviewedBy)
       && after.boundary == before.boundary && after.baseVersion == before.baseVersion && after.areaDelta == before.areaDelta
       && after.tolerance == before.tolerance && after.createdBy == before.createdBy && after.observationIds == before.observationIds
  }

  ghost predicate ConflictTransitioned(d: Db, d': Db, id: Id, to: ConflictState, actor: Actor) {
    && id in d.conflicts && id in d'.conflicts && d' == d.(conflicts := d.conflicts[id := d'.conflicts[id]], audits := d'.audits)
    && var before, after := d.conflicts[id], d'.conflicts[id];
       && (before.state, to) in CONFLICT_STEPS
       && after == before.(state := to, resolvedBy := if to == Resolved || to == Closed then Some(actor.id) else before.resolvedBy)
  }

  // ---- Parcels, drafts and runs ----

  // The columns the patch names take its values; the others come from one version the parcel has had.
  ghost predicate PatchTaken(lib: Library, copy: Parcel, after: Parcel, patch: ParcelPatch) {
    && after.name == (if patch.name.Some? then Text.TrimSpace(patch.name.value) else copy.name)
    && after.owner == (if patch.owner.Some? then Text.TrimSpace(patch.owner.value) else copy.owner)
    && after.state == (if patch.state.Some? then patch.state.value else copy.state)
    && (if patch.crs.Some? then lib.crsAccepted(patch.crs.value) && after.crs == lib.upper(Text.TrimSpace(patch.crs.value))
        else after.crs == copy.crs)
    && (if patch.boundary.Some? then
          Parsed(lib.engine, patch.boundary.value).Some? && after.boundary == patch.boundary.value
          && after.area == Parsed(lib.engine, patch.boundary.value).value.area
        else after.boundary == copy.boundary && after.area == copy.area)
  }

  // ParcelHistory says when that version is the current one.
  ghost predicate ParcelUpdated(lib: Library, d: Db, d': Db, id: Id, patch: ParcelPatch) {
    && id in d.parcels && id in d'.parcels && d' == d.(parcels := d.parcels[id := d'.parcels[id]], audits := d'.audits)
    && d'.parcels[id].id == id && d'.parcels[id].code == d.parcels[id].code && d'.parcels[id].version == d.parcels[id].version + 1
    && (patch.version.Some? ==> patch.version.value == d.parcels[id].version)
    && exists copy :: KnownParcel(d, copy) && copy.id == id && PatchTaken(lib, copy, d'.parcels[id], patch)
  }

  // The area delta is the draft's own area less the parcel's at the base version.
  ghost predicate MeasuredAgainst(lib: Library, d: Db, draft: Proposal) {
    var parcel := ParcelAt(d.audits, draft.parcelId, draft.baseVersion);
    && parcel.Some? && Parsed(lib.engine, draft.boundary).Some?
    && draft.areaDelta == Parsed(lib.engine, draft.boundary).value.area - parcel.value.area
  }

  // A first draft with the requested content, on evidence of its own parcel.
  ghost predicate ProposalDrafted(lib: Library, d: Db, d': Db, n: NewProposal, actor: Actor, id: Id) {
    && id !in d.proposals && id in d'.proposals && d' == d.(proposals := d.proposals[id := d'.proposals[id]], audits := d'.audits)
    && var draft := d'.proposals[id];
       && draft.id == id && draft.parcelId == n.parcelId && draft.baseVersion == n.baseVersion && draft.boundary == n.boundary
       && draft.observationIds == n.observationIds && draft.tolerance == n.tolerance && draft.rationale == Text.TrimSpace(n.rationale)
       && draft.state == Draft && draft.version == 1 && draft.createdBy == actor.id && draft.reviewedBy == None
       && MeasuredAgainst(lib, d, draft)
       && forall i :: 0 <= i < |n.observationIds| ==>
            n.observationIds[i] in d.observations && d.observations[n.observationIds[i]].parcelId == draft.parcelId
  }

  function DefaultRationale(conflict: Id): string {
    "Applied deterministic suggestion from topology conflict " + Text.Decimal(conflict) + "."
  }

  // The draft on the suggested boundary: the source's parcel, evidence and tolerance, and no review yet.
  ghost predicate DraftTaken(lib: Library, d: Db, conflict: Conflict, rationale: string, actor: Actor, draft: Proposal)
    requires conflict.proposalId in d.proposals
  {
    var source := d.proposals[conflict.proposalId];
    && draft.boundary == conflict.suggestion && draft.parcelId == source.parcelId
    && draft.observationIds == source.observationIds && draft.tolerance == source.tolerance
    && draft.version <= source.version + 1 && MeasuredAgainst(lib, d, draft)
    && draft.rationale == (if Text.Blank(rationale) then DefaultRationale(conflict.id) else Text.TrimSpace(rationale))
    && draft.state == Draft && draft.createdBy == actor.id && draft.reviewedBy == None
  }

  // An unreviewed draft on the suggested boundary, the conflict resolved, and the source left alone.
  ghost predicate SuggestionTaken(lib: Library, d: Db, d': Db, conflict: Id, rationale: string, actor: Actor, id: Id) {
    && (actor.role == Reviewer || actor.role == Admin)
    && conflict in d.conflicts && d.conflicts[conflict].state == ResolutionProposed && d.conflicts[conflict].proposalId in d.proposals
    && d.conflicts[conflict].id == conflict && id !in d.proposals && id in d'.proposals
    && d' == d.(proposals := d.proposals[id := d'.proposals[id]],
                conflicts := d.conflicts[conflict := d.conflicts[conflict].(state := Resolved, resolvedBy := Some(actor.id))],
                audits := d'.audits)
    && d'.proposals[id].id == id && DraftTaken(lib, d, d.conflicts[conflict], rationale, actor, d'.proposals[id])
  }

  // One run over new conflicts; every earlier row is as it was.
  ghost predicate RunRecorded(lib: Library, d: Db, d': Db, q: Request, actor: Actor, id: Id)
    requires q.DetectRequest?
  {
    && q.proposalId in d.proposals && !RunKeyTaken(d, actor.id, Text.TrimSpace(q.key))
    && id !in d.runs && id in d'.runs
    && d' == d.(conflicts := d'.conflicts, runs := d.runs[id := d'.runs[id]], audits := d'.audits)
    && var run := d'.runs[id];
       && run.proposalId == q.proposalId && run.actorId == actor.id && run.key == Text.TrimSpace(q.key)
       && 1 <= Text.Utf8Length(run.key) <= 128
       && run.requestHash == RequestHash(lib, q.proposalId, if q.tolerance == 0 then d.proposals[q.proposalId].tolerance else q.tolerance)
       && Distinct(run.resultIds)
       && (forall k :: k in d.conflicts ==> k in d'.conflicts && d'.conflicts[k] == d.conflicts[k] && k !in run.resultIds)
       && (forall k :: k in d'.conflicts && k !in d.conflicts ==> k in run.resultIds)
  }

  ghost predicate DoneAsAsked(lib: Library, d: Db, d': Db, q: Request, actor: Actor, ids: Ids) {
    match q
    case CreateParcelRequest(n) => ParcelRegistered(lib, d, d', n, ids.row)
    case ImportObservationRequest(n) => ObservationRegistered(lib, d, d', n, actor, ids.row)
    case MoveObservationRequest(id, m) => ObservationTransitioned(d, d', id, m, actor)
    case MoveProposalRequest(id, m) => ProposalTransitioned(d, d', id, m, actor)
    case MoveConflictRequest(id, to) => ConflictTransitioned(d, d', id, to, actor)
    case UpdateParcelRequest(id, patch) => ParcelUpdated(lib, d, d', id, patch)
    case CreateProposalRequest(n) => ProposalDrafted(lib, d, d', n, actor, ids.row)
    case ApplyRequest(id, rationale) => SuggestionTaken(lib, d, d', id, rationale, actor, ids.row)
    case DetectRequest(_, _, _) => RunRecorded(lib, d, d', q, actor, ids.row)
  }

  lemma InsertsAsAsked(lib: Library, d: Db, c: Client, tx: Tx, ids: Ids)
    requires (c.request.CreateParcelRequest? || c.request.ImportObservationRequest?) && CommitFromRequest(lib, d, c, tx)
    requires Execute(d, tx, c.actor, ids).Ok?
    ensures DoneAsAsked(lib, d, Execute(d, tx, c.actor, ids).value.db, c.request, c.actor, ids)
  {
  }

  lemma ObservationMovesAsAsked(lib: Library, d: Db, c: Client, tx: Tx, ids: Ids)
    requires ParcelsOk(d) && LinksOk(d) && c.request.MoveObservationRequest? && CommitFromRequest(lib, d, c, tx)
    requires TxOk(lib, d, tx, c.actor) && Execute(d, tx, c.actor, ids).Ok?
    ensures DoneAsAsked(lib, d, Execute(d, tx, c.actor, ids).value.db, c.request, c.actor, ids)
  {
    hide ParcelsOk, Trail;
    GuardSeesTheCopy(lib, d, tx, c.actor, ids);
    Text.TrimSpaceIdempotent(c.request.observationMove.note);
    assert LinkOk(d, c.request.id);
  }

  lemma ProposalMovesAsAsked(lib: Library, d: Db, c: Client, tx: Tx, ids: Ids)
    requires ParcelsOk(d) && c.request.MoveProposalRequest? && CommitFromRequest(lib, d, c, tx)
    requires TxOk(lib, d, tx, c.actor) && Execute(d, tx, c.actor, ids).Ok?
    ensures DoneAsAsked(lib, d, Execute(d, tx, c.actor, ids).value.db, c.request, c.actor, ids)
  {
    hide ParcelsOk, Trail, Text.Blank;
    GuardSeesTheCopy(lib, d, tx, c.actor, ids);
  }

  lemma ConflictMovesAsAsked(lib: Library, d: Db, c: Client, tx: Tx, ids: Ids)
    requires ParcelsOk(d) && c.request.MoveConflictRequest? && CommitFromRequest(lib, d, c, tx)
    requires TxOk(lib, d, tx, c.actor) && Execute(d, tx, c.actor, ids).Ok?
    ensures DoneAsAsked(lib, d, Execute(d, tx, c.actor, ids).value.db, c.request, c.actor, ids)
  {
    hide ParcelsOk, Trail, Text.Blank;
    GuardSeesTheCopy(lib, d, tx, c.actor, ids);
  }

  lemma PatchedTakesPatch(lib: Library, copy: Parcel, patch: ParcelPatch)
    requires Patched(lib, copy, patch).Some?
    ensures PatchTaken(lib, copy, Patched(lib, copy, patch).value, patch)
  {
  }

  lemma UpdatesAsAsked(lib: Library, d: Db, c: Client, tx: Tx, ids: Ids)
    requires ParcelsOk(d) && c.request.UpdateParcelRequest? && CommitFromRequest(lib, d, c, tx)
    requires TxOk(lib, d, tx, c.actor) && Execute(d, tx, c.actor, ids).Ok?
    ensures DoneAsAsked(lib, d, Execute(d, tx, c.actor, ids).value.db, c.request, c.actor, ids)
  {
    hide ParcelsOk, Trail, ParcelAt, Patched;
    CurrentParcelIsKnown(d, c.request.id);
    PatchedTakesPatch(lib, tx.before, c.request.patch);
    assert PatchTaken(lib, tx.before, Execute(d, tx, c.actor, ids).value.db.parcels[c.request.id], c.request.patch);
  }

  lemma DraftsAsAsked(lib: Library, d: Db, c: Client, tx: Tx, ids: Ids)
    requires c.request.CreateProposalRequest? && CommitFromRequest(lib, d, c, tx)
    requires TxOk(lib, d, tx, c.actor) && Execute(d, tx, c.actor, ids).Ok?
    ensures DoneAsAsked(lib, d, Execute(d, tx, c.actor, ids).value.db, c.request, c.actor, ids)
  {
    hide Trail;
  }

  lemma DerivedAsAsked(lib: Library, d: Db, actor: Actor, conflict: Conflict, derived: Proposal, rationale: string, id: Id)
    requires DerivedOk(lib, d, actor, conflict, derived, rationale) && FreshDraft(lib, d, derived)
    ensures DraftTaken(lib, d, conflict, rationale, actor, derived.(id := id))
  {
    hide ParcelAt, Parsed, Text.TrimSpace, Text.Blank, Text.Decimal;
  }

  lemma PendingSuggestion(lib: Library, d: Db, c: Client, tx: Tx)
    requires c.request.ApplyRequest? && CommitFromRequest(lib, d, c, tx) && TxOk(lib, d, tx, c.actor)
    ensures tx.ApplySuggestion? && tx.conflict.id == c.request.id && tx.conflict.state == ResolutionProposed && KnownConflict(d, tx.conflict)
    ensures c.actor.role == Reviewer || c.actor.role == Admin
    ensures tx.conflict.proposalId in d.proposals && DraftTaken(lib, d, tx.conflict, c.request.rationale, c.actor, tx.derived.(id := 0))
  {
    hide DraftTaken, FreshDraft, DerivedProposal, ConflictLater;
    DerivedAsAsked(lib, d, c.actor, tx.conflict, tx.derived, c.request.rationale, 0);
  }

  lemma SuggestionStored(lib: Library, d: Db, item: Conflict, derived: Proposal, rationale: string, actor: Actor, ids: Ids, done: Committed)
    requires KnownConflict(d, item) && item.state == ResolutionProposed && (actor.role == Reviewer || actor.role == Admin)
    requires item.proposalId in d.proposals && DraftTaken(lib, d, item, rationale, actor, derived.(id := 0))
    requires Execute(d, ApplySuggestion(item, derived), actor, ids) == Ok(done)
    ensures SuggestionTaken(lib, d, done.db, item.id, rationale, actor, ids.row)
  {
    assert DraftTaken(lib, d, item, rationale, actor, derived.(id := ids.row)) by {
      hide ParcelAt, Parsed, Text.TrimSpace, Text.Blank, DefaultRationale;
    }
    hide Execute, DraftTaken, ConflictLater;
    ApplySuggestionEffect(d, item, derived, actor, ids, done);
  }

  lemma SuggestionsAsAsked(lib: Library, d: Db, c: Client, tx: Tx, ids: Ids)
    requires c.request.ApplyRequest? && CommitFromRequest(lib, d, c, tx)
    requires TxOk(lib, d, tx, c.actor) && Execute(d, tx, c.actor, ids).Ok?
    ensures DoneAsAsked(lib, d, Execute(d, tx, c.actor, ids).value.db, c.request, c.actor, ids)
  {
    PendingSuggestion(lib, d, c, tx);
    hide CommitFromRequest, TxOk, KnownConflict, SuggestionTaken, DraftTaken, Execute;
    SuggestionStored(lib, d, tx.conflict, tx.derived, c.request.rationale, c.actor, ids, Execute(d, tx, c.actor, ids).value);
  }

  lemma KeyFits(key: string)
    requires KeyAccepted(key)
    ensures 1 <= Text.Utf8Length(Text.TrimSpace(key)) <= 128
  {
  }

  lemma RunsAsAsked(lib: Library, d: Db, c: Client, ids: Ids)
    requires c.request.DetectRequest? && c.stage.Commit? && DetectionOk(lib, d, c.request, c.actor, c.stage)
    requires Execute(d, c.stage.tx, c.actor, ids).Ok?
    ensures DoneAsAsked(lib, d, Execute(d, c.stage.tx, c.actor, ids).value.db, c.request, c.actor, ids)
  {
    hide InsertConflicts, RequestHash, KeyAccepted, Later;
    var tx, done := c.stage.tx, Execute(d, c.stage.tx, c.actor, ids).value;
    RecordRunEffect(d, tx.items, tx.run, tx.parcelId, c.actor, ids, done);
    KeyFits(c.request.key);
    if RunKeyTaken(d, c.actor.id, Text.TrimSpace(c.request.key)) {
      TakenKeyFails(d, tx, c.actor, ids);
    }
    hide Execute;
    forall k | k in d.conflicts ensures k !in ids.items[..|tx.items|] {
      NewResultsAreNew(d, InsertConflicts(d, tx.items, ids.items, c.actor, tx.parcelId).value, tx.items, ids.items, k);
    }
  }

  /** Whatever the interleaving, a request that commits has done to its row what
      it asked, with authority and legality checked against that row, and has
      changed no other row of any table. */
  lemma CommitsDoAsAsked(lib: Library, events: seq<Event>, who: nat, ids: Ids)
    requires Commits(After(lib, events), who, ids)
    ensures var s := After(lib, events); var c := s.clients[who];
            DoneAsAsked(lib, s.db, Apply(lib, s, Act(who, ids)).db, c.request, c.actor, ids)
  {
    hide After, StoreOk, ParcelsOk, ObservationsOk, ProposalsOk, ConflictsOk, LinksOk, GroundedOk, RunsOk, TxOk, Execute, CommitFromRequest;
    hide DoneAsAsked, DetectionOk;
    AlwaysOk(lib, events);
    AlwaysFromRequests(lib, events);
    var s := After(lib, events);
    var c := s.clients[who];
    OpenStore(lib, s.db);
    assert FromRequest(lib, s.db, c);
    match c.request
    case CreateParcelRequest(_) => InsertsAsAsked(lib, s.db, c, c.stage.tx, ids);
    case ImportObservationRequest(_) => InsertsAsAsked(lib, s.db, c, c.stage.tx, ids);
    case MoveObservationRequest(_, _) => ObservationMovesAsAsked(lib, s.db, c, c.stage.tx, ids);
    case MoveProposalRequest(_, _) => ProposalMovesAsAsked(lib, s.db, c, c.stage.tx, ids);
    case MoveConflictRequest(_, _) => ConflictMovesAsAsked(lib, s.db, c, c.stage.tx, ids);
    case UpdateParcelRequest(_, _) => UpdatesAsAsked(lib, s.db, c, c.stage.tx, ids);
    case CreateProposalRequest(_) => DraftsAsAsked(lib, s.db, c, c.stage.tx, ids);
    case ApplyRequest(_, _) => SuggestionsAsAsked(lib, s.db, c, c.stage.tx, ids);
    case DetectRequest(_, _, _) =>
      DetectionsAlwaysOk(lib, events);
      RunsAsAsked(lib, s.db, c, ids);
  }

  // ---- Codes ----

  ghost predicate CodesUnique(d: Db) {
    && (forall j, k :: j in d.parcels && k in d.parcels && d.parcels[j].code == d.parcels[k].code ==> j == k)
    && (forall j, k :: j in d.observations && k in d.observations && d.observations[j].code == d.observations[k].code ==> j == k)
  }

  lemma CommitKeepsCodes(d: Db, tx: Tx, actor: Actor, ids: Ids)
    requires CodesUnique(d) && Execute(d, tx, actor, ids).Ok?
    ensures CodesUnique(Execute(d, tx, actor, ids).value.db)
  {
    if tx.RecordRun? {
      hide InsertConflicts;
      InsertingAdds(d, tx.items, ids.items, actor, tx.parcelId);
    }
  }

  /** Parcel codes and observation codes stay unique, although new ones are
      checked before their rows exist. */
  lemma {:induction false} CodesStayUnique(lib: Library, events: seq<Event>)
    ensures CodesUnique(After(lib, events).db)
  {
    if events != [] {
      hide CodesUnique, Execute, Reading;
      var front, event := events[..|events| - 1], events[|events| - 1];
      var s := After(lib, front);
      CodesStayUnique(lib, front);
      if event.Act? && Busy(s, event.who) {
        var c := s.clients[event.who];
        if c.stage.Commit? && Execute(s.db, c.stage.tx, c.actor, event.ids).Ok? {
          CommitKeepsCodes(s.db, c.stage.tx, c.actor, event.ids);
        }
      }
    }
  }

  // ---- What a detection compares with ----

  /** The neighbours of a detection are exactly the other active parcels of the
      coordinate system, by ascending ID. */
  lemma NeighboursAreTheOthers(lib: Library, events: seq<Event>, crs: string, excluded: Id)
    ensures var d := After(lib, events).db; var ns := ActiveNeighbours(d, crs, excluded);
            && (forall i, j :: 0 <= i < j < |ns| ==> ns[i].id < ns[j].id)
            && (forall p: Parcel :: p in ns <==>
                  p.id in d.parcels && d.parcels[p.id] == p && p.crs == crs && p.state == "active" && p.id != excluded)
  {
    hide After, StoreOk, Trail;
    AlwaysOk(lib, events);
    var d := After(lib, events).db;
    OpenStore(lib, d);
    forall k | k in d.parcels ensures d.parcels[k].id == k {
      CurrentParcelIsKnown(d, k);
    }
    OthersByID(d, crs, excluded);
  }

  lemma OthersByID(d: Db, crs: string, excluded: Id)
    requires forall k :: k in d.parcels ==> d.parcels[k].id == k
    ensures var ns := ActiveNeighbours(d, crs, excluded);
            && (forall i, j :: 0 <= i < j < |ns| ==> ns[i].id < ns[j].id)
            && (forall p: Parcel :: p in ns <==>
                  p.id in d.parcels && d.parcels[p.id] == p && p.crs == crs && p.state == "active" && p.id != excluded)
  {
    var ids := Ascending(set k | k in d.parcels && d.parcels[k].crs == crs && d.parcels[k].state == "active" && k != excluded);
    var ns := ActiveNeighbours(d, crs, excluded);
    assert |ns| == |ids|;
    forall i | 0 <= i < |ids| ensures ids[i] in d.parcels && ns[i] == d.parcels[ids[i]] && ns[i].id == ids[i]
      ensures ns[i].crs == crs && ns[i].state == "active" && ns[i].id != excluded
    {
      assert ids[i] in ids;
    }
    forall p: Parcel | p.id in d.parcels && d.parcels[p.id] == p && p.crs == crs && p.state == "active" && p.id != excluded ensures p in ns {
      assert p.id in ids;
      var i :| 0 <= i < |ids| && ids[i] == p.id;
      assert ns[i] == p;
    }
  }
}
