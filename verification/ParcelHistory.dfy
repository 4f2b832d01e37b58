/**
 Versions of parcels: proposals are measured against a version that existed,
 and updates that compare the version they read lose nothing.
 */
module ParcelHistory {
  import opened Basics
  import Text
  import opened Lifecycles
  import opened Polygons
  import opened Records
  import opened Transactions
  import opened Protocol
  import opened Trails
  import opened Growth
  import opened Invariants
  import opened Interleaving
  import opened Refinement
  import opened Calls
  import opened Races
  import opened Reviews

  /** The log is the parcel's true history: whatever a parcel was at any moment of
      a run, the log still tells at the end, under its version. */
  lemma HistoryIsTrue(lib: Library, events: seq<Event>, n: nat, id: Id)
    requires n <= |events| && id in After(lib, events[..n]).db.parcels
    ensures var row := After(lib, events[..n]).db.parcels[id];
            ParcelAt(After(lib, events).db.audits, id, row.version) == Some(row)
  {
    hide After, Trail, StoreOk;
    AlwaysOk(lib, events[..n]);
    RunsGoForward(lib, events, n);
    var d, d' := After(lib, events[..n]).db, After(lib, events).db;
    OpenStore(lib, d);
    CurrentParcelIsKnown(d, id);
    ParcelAtIsStable(d, d', id, d.parcels[id].version);
  }

  /** Every proposal, created or derived, names a version its parcel has had, and
      its area delta is its own area less the parcel's area at that version. */
  lemma ProposalsAreGrounded(lib: Library, events: seq<Event>, k: Id)
    requires k in After(lib, events).db.proposals
    ensures var d := After(lib, events).db; var p := d.proposals[k];
            && p.parcelId in d.parcels && 1 <= p.baseVersion <= d.parcels[p.parcelId].version
            && Parsed(lib.engine, p.boundary).Some? && ParcelAt(d.audits, p.parcelId, p.baseVersion).Some?
            && p.areaDelta == Parsed(lib.engine, p.boundary).value.area - ParcelAt(d.audits, p.parcelId, p.baseVersion).value.area
  {
    hide After, Trail;
    AlwaysOk(lib, events);
    var d := After(lib, events).db;
    assert Grounded(lib, d, d.proposals[k]);
    var id := d.proposals[k].parcelId;
    assert ParcelTracked(Lookup(d.parcels, id), id, Trail(d.audits, ParcelResource, id));
  }

  // ---- Updates ----

  ghost predicate CommitsUpdate(s: System, who: nat, ids: Ids) {
    Commits(s, who, ids) && s.clients[who].request.UpdateParcelRequest? && s.clients[who].stage.tx.UpdateParcel?
  }

  // The patch applied to the row itself, at its next version.
  function Merged(lib: Library, row: Parcel, patch: ParcelPatch): Option<Parcel> {
    match Patched(lib, row, patch)
    case None => None
    case Some(after) => Some(after.(version := row.version + 1))
  }

  // Where the patch is silent, copy and row say the same.
  predicate AgreeOutside(patch: ParcelPatch, copy: Parcel, row: Parcel) {
    && (patch.name.None? ==> copy.name == row.name) && (patch.owner.None? ==> copy.owner == row.owner)
    && (patch.state.None? ==> copy.state == row.state) && (patch.crs.None? ==> copy.crs == row.crs)
    && (patch.boundary.None? ==> copy.boundary == row.boundary && copy.area == row.area)
  }

  lemma UpdateEffect(lib: Library, d: Db, c: Client, ids: Ids)
    requires ParcelsOk(d) && c.request.UpdateParcelRequest? && c.stage.Commit? && c.stage.tx.UpdateParcel?
    requires TxOk(lib, d, c.stage.tx, c.actor) && CommitFromRequest(lib, d, c, c.stage.tx)
    requires Execute(d, c.stage.tx, c.actor, ids).Ok?
    ensures var tx, patch := c.stage.tx, c.request.patch;
            var d' := Execute(d, tx, c.actor, ids).value.db;
            var id := tx.before.id;
            && id in d.parcels && id in d'.parcels && tx.expected == d.parcels[id].version
            && (Merged(lib, d.parcels[id], patch) == Some(d'.parcels[id]) <==> AgreeOutside(patch, tx.before, d.parcels[id]))
            && (d'.audits[|d.audits|].before == ParcelImage(d.parcels[id]) <==> tx.expected == tx.before.version)
            && d'.audits[|d.audits|].after.ParcelImage? && d'.audits[|d.audits|].after.parcel.version == tx.before.version
            && d'.parcels[id].version == tx.expected + 1
  {
    hide Trail, ParcelsOk;
    SameVersionIsSameParcel(d, c.stage.tx.before);
    CurrentParcelIsKnown(d, c.stage.tx.before.id);
  }

  /** An update that compares the version it read, as every update without an
      explicit version does, merges its fields into the row as it stands and logs
      the row as it was. */
  lemma UpdatesMerge(lib: Library, events: seq<Event>, who: nat, ids: Ids)
    requires CommitsUpdate(After(lib, events), who, ids)
    requires After(lib, events).clients[who].stage.tx.expected == After(lib, events).clients[who].stage.tx.before.version
    ensures var s := After(lib, events); var c := s.clients[who]; var d' := Apply(lib, s, Act(who, ids)).db; var id := c.request.id;
            && id in s.db.parcels && id in d'.parcels
            && Merged(lib, s.db.parcels[id], c.request.patch) == Some(d'.parcels[id])
            && |d'.audits| == |s.db.audits| + 1 && d'.audits[|s.db.audits|].before == ParcelImage(s.db.parcels[id])
  {
    hide After, StoreOk, Merged, Patched, AgreeOutside;
    AlwaysOk(lib, events);
    AlwaysFromRequests(lib, events);
    var s := After(lib, events);
    var c := s.clients[who];
    OpenStore(lib, s.db);
    assert FromRequest(lib, s.db, c);
    UpdateEffect(lib, s.db, c, ids);
    SameVersionIsSameParcel(s.db, c.stage.tx.before);
    SameRowAgrees(c.request.patch, c.stage.tx.before);
  }

  lemma SameRowAgrees(patch: ParcelPatch, row: Parcel)
    ensures AgreeOutside(patch, row, row)
  {
  }

  lemma OmittedVersionIsTheOneRead(lib: Library, events: seq<Event>, who: nat, ids: Ids)
    requires CommitsUpdate(After(lib, events), who, ids) && After(lib, events).clients[who].request.patch.version == None
    ensures After(lib, events).clients[who].stage.tx.expected == After(lib, events).clients[who].stage.tx.before.version
  {
    hide After, Trail, Patched;
    AlwaysFromRequests(lib, events);
    var s := After(lib, events);
    assert FromRequest(lib, s.db, s.clients[who]);
  }

  /** In general an update that commits merges into the row exactly when its copy
      agrees with the row wherever the patch is silent; it logs the row as it was
      exactly when it compared the version it read. The logged after-image keeps
      the version of the copy, the stored row has the next one. */
  lemma UpdatesMergeExactly(lib: Library, events: seq<Event>, who: nat, ids: Ids)
    requires CommitsUpdate(After(lib, events), who, ids)
    ensures var s := After(lib, events); var c := s.clients[who]; var d' := Apply(lib, s, Act(who, ids)).db; var id := c.request.id;
            && id in s.db.parcels && id in d'.parcels && |d'.audits| == |s.db.audits| + 1
            && (Merged(lib, s.db.parcels[id], c.request.patch) == Some(d'.parcels[id])
                <==> AgreeOutside(c.request.patch, c.stage.tx.before, s.db.parcels[id]))
            && (d'.audits[|s.db.audits|].before == ParcelImage(s.db.parcels[id]) <==> c.stage.tx.expected == c.stage.tx.before.version)
            && d'.audits[|s.db.audits|].after.ParcelImage?
            && (d'.audits[|s.db.audits|].after.parcel.version + 1 == d'.parcels[id].version <==> c.stage.tx.expected == c.stage.tx.before.version)
  {
    hide After, StoreOk, Merged, Patched, AgreeOutside;
    AlwaysOk(lib, events);
    AlwaysFromRequests(lib, events);
    var s := After(lib, events);
    var c := s.clients[who];
    OpenStore(lib, s.db);
    assert FromRequest(lib, s.db, c);
    UpdateEffect(lib, s.db, c, ids);
  }

  /** An update commits exactly when the parcel has the expected version and the
      request ID is not blank; otherwise it is answered as an internal error. */
  lemma StaleUpdatesFail(lib: Library, events: seq<Event>, who: nat, ids: Ids)
    requires who in After(lib, events).clients && After(lib, events).clients[who].stage.Commit?
    requires After(lib, events).clients[who].stage.tx.UpdateParcel?
    ensures var s := After(lib, events); var c := s.clients[who]; var s' := Apply(lib, s, Act(who, ids));
            var id := c.stage.tx.before.id;
            && id in s.db.parcels
            && if s.db.parcels[id].version == c.stage.tx.expected && !Text.Blank(c.actor.requestId)
               then s'.clients[who].stage.reply.ParcelReply?
               else s'.clients[who].stage == Finished(Failure(Internal)) && s'.db == s.db
  {
    hide After, StoreOk, Trail;
    AlwaysOk(lib, events);
    var s := After(lib, events);
    assert StageOk(lib, s.db, s.clients[who].stage, s.clients[who].actor);
  }

  // ---- A version the request did not read ----

  const SILENT_PATCH := ParcelPatch(None, None, None, None, None, None)

  function Renaming(id: Id, name: string, actor: Actor): Call {
    Call(UpdateParcelRequest(id, SILENT_PATCH.(name := Some(name))), actor, Ids(0, []))
  }

  // A change of owner that names the version after the one it will read.
  function EarlyChangeOfOwner(id: Id, version: nat, owner: string, actor: Actor): Call {
    Call(UpdateParcelRequest(id, SILENT_PATCH.(owner := Some(owner), version := Some(version + 1))), actor, Ids(0, []))
  }

  lemma LookOfUpdate(lib: Library, d: Db, q: Call, tx: Tx)
    requires q.request.UpdateParcelRequest? && q.request.id in d.parcels
    requires AfterReadingParcel(lib, d.parcels[q.request.id], q.request.patch) == Commit(tx)
    ensures LooksTo(lib, d, NewClient(q), 1, Commit(tx))
  {
    hide AfterReadingParcel;
    NoLook(lib, d, NewClient(q).(stage := Commit(tx)));
    OneLook(lib, d, NewClient(q), Commit(tx), 0, Commit(tx));
  }

  lemma TwoUpdates(d: Db, before: Parcel, first: Parcel, second: Parcel, actor: Actor, ids: Ids)
    requires before.id in d.parcels && d.parcels[before.id] == before && !Text.Blank(actor.requestId)
    requires first == before.(name := first.name) && second == before.(owner := second.owner)
    ensures var one := Execute(d, UpdateParcel(before, first, before.version), actor, ids);
            && one == Ok(Committed(one.value.db, ParcelReply(first.(version := before.version + 1))))
            && var two := Execute(one.value.db, UpdateParcel(before, second, before.version + 1), actor, ids);
               && two.Ok? && before.id in two.value.db.parcels
               && two.value.db.parcels[before.id] == second.(version := before.version + 2)
  {
  }

  /** Naming the version after the one read overwrites a concurrent update: the
      renaming is confirmed to its client, and the old name comes back. */
  lemma AnExplicitVersionCanLoseAnUpdate(lib: Library, events: seq<Event>, id: Id, name: string, owner: string, a: nat, b: nat, actor: Actor)
    requires id in After(lib, events).db.parcels && !Text.Blank(actor.requestId)
    requires a != b && a !in After(lib, events).clients && b !in After(lib, events).clients
    ensures var row := After(lib, events).db.parcels[id];
            var s' := After(lib, events + Race(a, EarlyChangeOfOwner(id, row.version, owner, actor), 1, b, Renaming(id, name, actor), 1));
            && b in s'.clients && s'.clients[b].stage == Finished(ParcelReply(row.(name := Text.TrimSpace(name), version := row.version + 1)))
            && id in s'.db.parcels && s'.db.parcels[id] == row.(owner := Text.TrimSpace(owner), version := row.version + 2)
  {
    var d := After(lib, events).db;
    var row := d.parcels[id];
    StoredUnderId(lib, events, id);
    var first, second := row.(name := Text.TrimSpace(name)), row.(owner := Text.TrimSpace(owner));
    var qa, qb := EarlyChangeOfOwner(id, row.version, owner, actor), Renaming(id, name, actor);
    var ta, tb := UpdateParcel(row, second, row.version + 1), UpdateParcel(row, first, row.version);
    LookOfUpdate(lib, d, qa, ta);
    LookOfUpdate(lib, d, qb, tb);
    hide After, LooksTo, Execute;
    RaceEnds(lib, events, a, qa, 1, b, qb, 1, ta, tb);
    TwoUpdates(d, row, first, second, actor, qa.ids);
  }

  lemma StoredUnderId(lib: Library, events: seq<Event>, id: Id)
    requires id in After(lib, events).db.parcels
    ensures After(lib, events).db.parcels[id].id == id
  {
    hide After, StoreOk;
    AlwaysOk(lib, events);
    OpenStore(lib, After(lib, events).db);
    CurrentParcelIsKnown(After(lib, events).db, id);
  }
}
