/**
 The rows a detection has read: each pending run is the analysis of rows the
 store held at some earlier moment, and so is each stored one.
 */
module DetectionInputs {
  import opened Basics
  import Text
  import opened ParcelIds
  import opened Lifecycles
  import opened Topology
  import opened Records
  import opened Analysis
  import opened Transactions
  import opened Protocol
  import opened Growth
  import opened Invariants
  import opened DetectionWrites
  import opened Interleaving
  import opened Refinement
  import opened Idempotency
  import opened ExactlyOnce

  // The parcel and the neighbours a detection read, and after how many events.
  datatype Reads = Reads(parcel: Parcel, neighbours: seq<Parcel>, parcelAt: nat, neighboursAt: nat)

  ghost predicate ParcelReadAt(lib: Library, events: seq<Event>, id: Id, parcel: Parcel, at: nat) {
    at <= |events| && id in After(lib, events[..at]).db.parcels && After(lib, events[..at]).db.parcels[id] == parcel
  }

  ghost predicate ReadAt(lib: Library, events: seq<Event>, id: Id, r: Reads) {
    && ParcelReadAt(lib, events, id, r.parcel, r.parcelAt) && r.parcelAt <= r.neighboursAt <= |events|
    && r.neighbours == ActiveNeighbours(After(lib, events[..r.neighboursAt]).db, r.parcel.crs, r.parcel.id)
  }

  // What a detection records from these reads.
  function RecordedFrom(lib: Library, proposal: Proposal, q: Request, actor: Actor, r: Reads): Stage
    requires q.DetectRequest?
  {
    AfterReadingNeighbours(lib, proposal, r.parcel, r.neighbours, EffectiveTolerance(q.tolerance, proposal), Text.TrimSpace(q.key), actor)
  }

  ghost predicate ReadsOf(lib: Library, events: seq<Event>, c: Client, r: Reads) {
    && c.request.DetectRequest? && c.request.proposalId in After(lib, events).db.proposals
    && var proposal := After(lib, events).db.proposals[c.request.proposalId];
       ReadAt(lib, events, proposal.parcelId, r) && RecordedFrom(lib, proposal, c.request, c.actor, r) == c.stage
  }

  ghost predicate Traced(lib: Library, events: seq<Event>, c: Client) {
    match c.stage
    case ReadNeighbours(proposal, parcel, _, _) => exists at :: ParcelReadAt(lib, events, proposal.parcelId, parcel, at)
    case Commit(_) => exists r :: ReadsOf(lib, events, c, r)
    case _ => true
  }

  // ---- Reads stay read ----

  lemma EarlierMoments(lib: Library, events: seq<Event>, at: nat)
    requires events != [] && at < |events|
    ensures events[..|events| - 1][..at] == events[..at]
  {
  }

  lemma ReadStays(lib: Library, events: seq<Event>, id: Id, r: Reads)
    requires events != [] && ReadAt(lib, events[..|events| - 1], id, r)
    ensures ReadAt(lib, events, id, r)
  {
    hide After, ActiveNeighbours;
    EarlierMoments(lib, events, r.parcelAt);
    EarlierMoments(lib, events, r.neighboursAt);
  }

  // The columns of a proposal a detection uses never change.
  lemma SameProposalRecordsTheSame(lib: Library, a: Proposal, b: Proposal, q: Request, actor: Actor, r: Reads)
    requires q.DetectRequest? && ProposalLater(a, b)
    ensures RecordedFrom(lib, a, q, actor, r) == RecordedFrom(lib, b, q, actor, r) && a.parcelId == b.parcelId
    ensures EffectiveTolerance(q.tolerance, a) == EffectiveTolerance(q.tolerance, b)
  {
    hide AfterReadingNeighbours;
    RunsSeeTextsOnly(lib, a, b, r.parcel, r.parcel, r.neighbours, r.neighbours, EffectiveTolerance(q.tolerance, a), Text.TrimSpace(q.key), actor);
  }

  lemma ReadsStay(lib: Library, events: seq<Event>, c: Client, r: Reads)
    requires events != [] && ReadsOf(lib, events[..|events| - 1], c, r)
    requires Later(After(lib, events[..|events| - 1]).db, After(lib, events).db)
    ensures ReadsOf(lib, events, c, r)
  {
    hide After, ReadAt, RecordedFrom;
    var d, d' := After(lib, events[..|events| - 1]).db, After(lib, events).db;
    assert ProposalLater(d.proposals[c.request.proposalId], d'.proposals[c.request.proposalId]);
    SameProposalRecordsTheSame(lib, d.proposals[c.request.proposalId], d'.proposals[c.request.proposalId], c.request, c.actor, r);
    ReadStays(lib, events, d.proposals[c.request.proposalId].parcelId, r);
  }

  lemma TracedStays(lib: Library, events: seq<Event>, c: Client)
    requires events != [] && Traced(lib, events[..|events| - 1], c)
    requires Later(After(lib, events[..|events| - 1]).db, After(lib, events).db)
    ensures Traced(lib, events, c)
  {
    hide After, ParcelReadAt, ReadsOf, Later;
    var front := events[..|events| - 1];
    if c.stage.ReadNeighbours? {
      var at :| ParcelReadAt(lib, front, c.stage.proposal.parcelId, c.stage.parcel, at);
      ParcelReadStays(lib, events, c.stage.proposal.parcelId, c.stage.parcel, at);
    } else if c.stage.Commit? {
      var r :| ReadsOf(lib, front, c, r);
      ReadsStay(lib, events, c, r);
    }
  }

  lemma ParcelReadStays(lib: Library, events: seq<Event>, id: Id, parcel: Parcel, at: nat)
    requires events != [] && ParcelReadAt(lib, events[..|events| - 1], id, parcel, at)
    ensures ParcelReadAt(lib, events, id, parcel, at)
  {
    hide After;
    EarlierMoments(lib, events, at);
  }

  // ---- The next look-up ----

  lemma NeighboursJustRead(lib: Library, events: seq<Event>, c: Client)
    requires c.request.DetectRequest? && c.stage.ReadNeighbours? && Traced(lib, events, c)
    requires DetectionOk(lib, After(lib, events).db, c.request, c.actor, c.stage)
    requires Reading(lib, After(lib, events).db, c).Commit?
    ensures exists r :: ReadsOf(lib, events, c.(stage := Reading(lib, After(lib, events).db, c)), r)
  {
    hide After, ActiveNeighbours, AfterReadingNeighbours, KeyAccepted;
    var d, stage := After(lib, events).db, c.stage;
    var at :| ParcelReadAt(lib, events, stage.proposal.parcelId, stage.parcel, at);
    var r := Reads(stage.parcel, ActiveNeighbours(d, stage.parcel.crs, stage.parcel.id), at, |events|);
    assert events[..|events|] == events;
    var row := d.proposals[c.request.proposalId];
    SameProposalRecordsTheSame(lib, stage.proposal, row, c.request, c.actor, r);
    assert ReadsOf(lib, events, c.(stage := Reading(lib, d, c)), r);
  }

  lemma ParcelJustRead(lib: Library, events: seq<Event>, c: Client)
    requires c.request.DetectRequest? && c.stage.ReadDetectionParcel? && Reading(lib, After(lib, events).db, c).ReadNeighbours?
    ensures Traced(lib, events, c.(stage := Reading(lib, After(lib, events).db, c)))
  {
    hide After;
    assert events[..|events|] == events;
    assert ParcelReadAt(lib, events, c.stage.proposal.parcelId, After(lib, events).db.parcels[c.stage.proposal.parcelId], |events|);
  }

  // Other look-ups read neither parcels nor neighbours.
  lemma OtherLookUps(lib: Library, d: Db, c: Client)
    requires c.request.DetectRequest? && !c.stage.Commit? && !c.stage.ReadDetectionParcel? && !c.stage.ReadNeighbours?
    requires DetectionOk(lib, d, c.request, c.actor, c.stage)
    ensures !Reading(lib, d, c).Commit? && !Reading(lib, d, c).ReadNeighbours?
  {
    hide RequestHash, RunOf, ConflictsByIds, KeyAccepted, AfterReadingNeighbours, ActiveNeighbours;
  }

  lemma LookUpTraced(lib: Library, events: seq<Event>, c: Client)
    requires c.request.DetectRequest? && !c.stage.Commit? && Traced(lib, events, c)
    requires DetectionOk(lib, After(lib, events).db, c.request, c.actor, c.stage)
    ensures Traced(lib, events, c.(stage := Reading(lib, After(lib, events).db, c)))
  {
    var c' := c.(stage := Reading(lib, After(lib, events).db, c));
    if c'.stage.Commit? || c'.stage.ReadNeighbours? {
      if c.stage.ReadNeighbours? {
        NeighboursCommit(lib, After(lib, events).db, c);
        hide Reading, DetectionOk, After, ReadsOf, ParcelReadAt;
        NeighboursJustRead(lib, events, c);
      } else if c.stage.ReadDetectionParcel? {
        ParcelCommit(lib, After(lib, events).db, c);
        hide Reading, DetectionOk, After, ReadsOf, ParcelReadAt;
        ParcelJustRead(lib, events, c);
      } else {
        hide Reading, DetectionOk, After, ReadsOf, ParcelReadAt;
        OtherLookUps(lib, After(lib, events).db, c);
      }
    }
  }

  lemma NeighboursCommit(lib: Library, d: Db, c: Client)
    requires c.stage.ReadNeighbours?
    ensures !Reading(lib, d, c).ReadNeighbours?
  {
    hide Compute, InputHash, RequestHash, NewConflicts, ActiveNeighbours;
  }

  lemma ParcelCommit(lib: Library, d: Db, c: Client)
    requires c.stage.ReadDetectionParcel?
    ensures !Reading(lib, d, c).Commit?
  {
  }

  // ---- Every run ----

  ghost predicate AllTraced(lib: Library, events: seq<Event>) {
    var s := After(lib, events);
    forall who :: who in s.clients && s.clients[who].request.DetectRequest? ==> Traced(lib, events, s.clients[who])
  }

  lemma LastEventTraced(lib: Library, events: seq<Event>, who: nat)
    requires events != [] && AllTraced(lib, events[..|events| - 1])
    requires who in After(lib, events).clients && After(lib, events).clients[who].request.DetectRequest?
    ensures Traced(lib, events, After(lib, events).clients[who])
  {
    hide SystemOk, DetectionOk, Traced, Execute, Reading, Later;
    var front, event := events[..|events| - 1], events[|events| - 1];
    var s := After(lib, front);
    assert After(lib, events) == Apply(lib, s, event);
    hide After;
    AlwaysOk(lib, front);
    DetectionsAlwaysOk(lib, front);
    EventIsOk(lib, s, event);
    if who in s.clients {
      var c := s.clients[who];
      if event.Act? && event.who == who && !c.stage.Finished? {
        if c.stage.Commit? {
          NothingToTrace(lib, events, After(lib, events).clients[who]);
        } else {
          LookUpTraced(lib, front, c);
          TracedStays(lib, events, c.(stage := Reading(lib, s.db, c)));
        }
      } else {
        TracedStays(lib, events, c);
      }
    } else {
      NothingToTrace(lib, events, After(lib, events).clients[who]);
    }
  }

  lemma NothingToTrace(lib: Library, events: seq<Event>, c: Client)
    requires !c.stage.Commit? && !c.stage.ReadNeighbours?
    ensures Traced(lib, events, c)
  {
  }

  lemma {:induction false} DetectionsAlwaysTraced(lib: Library, events: seq<Event>)
    ensures AllTraced(lib, events)
  {
    hide Apply, Traced;
    if events != [] {
      DetectionsAlwaysTraced(lib, events[..|events| - 1]);
      forall who | who in After(lib, events).clients && After(lib, events).clients[who].request.DetectRequest?
        ensures Traced(lib, events, After(lib, events).clients[who])
      {
        LastEventTraced(lib, events, who);
      }
    }
  }

  // ---- Coordinate systems ----

  // Every stored coordinate system is a text the allow-list accepted.
  ghost predicate CrsClean(s: System) {
    && (forall k :: k in s.db.parcels ==> Text.NulFree(s.db.parcels[k].crs))
    && (forall who :: who in s.clients ==> PendingCrsClean(s.clients[who].stage))
  }

  ghost predicate PendingCrsClean(stage: Stage) {
    stage.Commit? ==>
      match stage.tx
      case InsertParcel(p) => Text.NulFree(p.crs)
      case UpdateParcel(_, after, _) => Text.NulFree(after.crs)
      case _ => true
  }

  lemma PatchedCrsClean(lib: Library, before: Parcel, patch: ParcelPatch)
    requires Textual(lib) && Text.NulFree(before.crs) && Patched(lib, before, patch).Some?
    ensures Text.NulFree(Patched(lib, before, patch).value.crs)
  {
  }

  lemma LookUpCrsClean(lib: Library, d: Db, c: Client)
    requires Textual(lib) && !c.stage.Commit? && (forall k :: k in d.parcels ==> Text.NulFree(d.parcels[k].crs))
    ensures PendingCrsClean(Reading(lib, d, c))
  {
    hide Patched, Compute, InputHash, RequestHash, NewConflicts, RunOf, ActiveNeighbours, ConflictsByIds, KeyAccepted, Text.NulFree;
    if c.stage.Start? && c.request.UpdateParcelRequest? && c.request.id in d.parcels
       && Patched(lib, d.parcels[c.request.id], c.request.patch).Some? {
      PatchedCrsClean(lib, d.parcels[c.request.id], c.request.patch);
    }
  }

  lemma CommitCrsClean(d: Db, tx: Tx, actor: Actor, ids: Ids)
    requires PendingCrsClean(Commit(tx)) && (forall k :: k in d.parcels ==> Text.NulFree(d.parcels[k].crs)) && Execute(d, tx, actor, ids).Ok?
    ensures var d' := Execute(d, tx, actor, ids).value.db; forall k :: k in d'.parcels ==> Text.NulFree(d'.parcels[k].crs)
  {
    hide Text.NulFree;
    if tx.RecordRun? {
      hide InsertConflicts;
      InsertingAdds(d, tx.items, ids.items, actor, tx.parcelId);
    }
  }

  lemma {:induction false} CrsAlwaysClean(lib: Library, events: seq<Event>)
    requires Textual(lib)
    ensures CrsClean(After(lib, events))
  {
    hide Textual, Execute, Reading, Text.NulFree;
    if events != [] {
      var front, event := events[..|events| - 1], events[|events| - 1];
      var s := After(lib, front);
      CrsAlwaysClean(lib, front);
      if event.Act? && Busy(s, event.who) {
        var c := s.clients[event.who];
        if !c.stage.Commit? {
          LookUpCrsClean(lib, s.db, c);
        } else if Execute(s.db, c.stage.tx, c.actor, event.ids).Ok? {
          CommitCrsClean(s.db, c.stage.tx, c.actor, event.ids);
        }
      }
    }
  }

  // ---- A pending run and the rows as they are now ----

  // The texts a detection has read are still those of the store.
  ghost predicate TextsAreCurrent(d: Db, q: Request, r: Reads)
    requires q.DetectRequest?
  {
    && q.proposalId in d.proposals && d.proposals[q.proposalId].parcelId in d.parcels
    && var row := d.parcels[d.proposals[q.proposalId].parcelId];
       row.boundary == r.parcel.boundary && row.crs == r.parcel.crs && SameNeighbours(r.neighbours, ActiveNeighbours(d, row.crs, row.id))
  }

  lemma RecordedAnalysis(lib: Library, proposal: Proposal, q: Request, actor: Actor, r: Reads)
    requires q.DetectRequest? && RecordedFrom(lib, proposal, q, actor, r).Commit?
    ensures var tx, tolerance := RecordedFrom(lib, proposal, q, actor, r).tx, EffectiveTolerance(q.tolerance, proposal);
            var outcome := Compute(lib, r.parcel.boundary, proposal.boundary, r.neighbours, tolerance);
            && outcome.Ok? && Found(lib, r.parcel.boundary, proposal.boundary, r.neighbours, tolerance, outcome.value)
            && tx.RecordRun? && tx.run.inputHash == InputHash(lib, r.parcel, proposal, r.neighbours, tolerance)
            && tx.items == NewConflicts(r.parcel, proposal, tx.run.inputHash, outcome.value)
  {
    hide Compute, Found, InputHash, RequestHash, NewConflicts;
    var tolerance := EffectiveTolerance(q.tolerance, proposal);
    var outcome := Compute(lib, r.parcel.boundary, proposal.boundary, r.neighbours, tolerance);
    ComputedIsFound(lib, r.parcel.boundary, proposal.boundary, r.neighbours, tolerance, outcome.value);
  }

  // The rows as they are, read at once.
  function ReadNow(d: Db, proposal: Proposal): Reads
    requires proposal.parcelId in d.parcels
  {
    var parcel := d.parcels[proposal.parcelId];
    Reads(parcel, ActiveNeighbours(d, parcel.crs, parcel.id), 0, 0)
  }

  lemma CurrentTextsRecordTheSame(lib: Library, d: Db, q: Request, actor: Actor, r: Reads)
    requires q.DetectRequest? && TextsAreCurrent(d, q, r) && d.parcels[d.proposals[q.proposalId].parcelId].id == r.parcel.id
    ensures RecordedNow(lib, d, q, actor) == Some(RecordedFrom(lib, d.proposals[q.proposalId], q, actor, r))
  {
    hide AfterReadingNeighbours, ActiveNeighbours;
    var proposal := d.proposals[q.proposalId];
    var now := ReadNow(d, proposal);
    RunsSeeTextsOnly(lib, proposal, proposal, r.parcel, now.parcel, r.neighbours, now.neighbours,
                     EffectiveTolerance(q.tolerance, proposal), Text.TrimSpace(q.key), actor);
  }

  lemma SameRecordMeansSameTexts(lib: Library, d: Db, q: Request, actor: Actor, r: Reads)
    requires Textual(lib) && q.DetectRequest? && q.proposalId in d.proposals && d.proposals[q.proposalId].parcelId in d.parcels
    requires Text.NulFree(r.parcel.crs) && Text.NulFree(d.parcels[d.proposals[q.proposalId].parcelId].crs)
    requires RecordedFrom(lib, d.proposals[q.proposalId], q, actor, r).Commit?
    requires RecordedNow(lib, d, q, actor) == Some(RecordedFrom(lib, d.proposals[q.proposalId], q, actor, r))
    ensures TextsAreCurrent(d, q, r)
  {
    hide Compute, Found, InputHash, NewConflicts, Textual, Text.NulFree, ActiveNeighbours, AfterReadingNeighbours;
    var proposal := d.proposals[q.proposalId];
    var tolerance, now := EffectiveTolerance(q.tolerance, proposal), ReadNow(d, proposal);
    RecordedAnalysis(lib, proposal, q, actor, r);
    RecordedAnalysis(lib, proposal, q, actor, now);
    InputHashDeterminesFindings(
      lib, r.parcel, proposal, r.neighbours, tolerance, Compute(lib, r.parcel.boundary, proposal.boundary, r.neighbours, tolerance).value,
      now.parcel, proposal, now.neighbours, tolerance, Compute(lib, now.parcel.boundary, proposal.boundary, now.neighbours, tolerance).value);
  }

  lemma ReadParcelId(lib: Library, events: seq<Event>, id: Id, r: Reads)
    requires ReadAt(lib, events, id, r) && id in After(lib, events).db.parcels
    ensures r.parcel.id == id && After(lib, events).db.parcels[id].id == id
  {
    AlwaysOk(lib, events[..r.parcelAt]);
    AlwaysOk(lib, events);
    hide After, StoreOk, ActiveNeighbours;
    OpenStore(lib, After(lib, events[..r.parcelAt]).db);
    OpenStore(lib, After(lib, events).db);
    CurrentParcelIsKnown(After(lib, events[..r.parcelAt]).db, id);
    CurrentParcelIsKnown(After(lib, events).db, id);
  }

  lemma CurrentDetection(lib: Library, events: seq<Event>, who: nat, r: Reads)
    requires DetectionBy(After(lib, events), who) && ReadsOf(lib, events, After(lib, events).clients[who], r)
    ensures var s := After(lib, events); var c := s.clients[who];
            && s.db.proposals[c.request.proposalId].parcelId in s.db.parcels
            && (TextsAreCurrent(s.db, c.request, r) ==> RecordedNow(lib, s.db, c.request, c.actor) == Some(c.stage))
  {
    hide After, StoreOk, RecordedFrom, RecordedNow, TextsAreCurrent, ReadAt;
    AlwaysOk(lib, events);
    var s := After(lib, events);
    var c := s.clients[who];
    ParcelsOfProposals(lib, s.db, c.request.proposalId);
    ReadParcelId(lib, events, s.db.proposals[c.request.proposalId].parcelId, r);
    if TextsAreCurrent(s.db, c.request, r) {
      CurrentTextsRecordTheSame(lib, s.db, c.request, c.actor, r);
    }
  }

  /** A detection about to commit has read its parcel and then its neighbours from
      the store, and asks to record their analysis. */
  lemma PendingRunsWereRead(lib: Library, events: seq<Event>, who: nat)
    requires DetectionBy(After(lib, events), who) && After(lib, events).clients[who].stage.Commit?
    ensures exists r :: ReadsOf(lib, events, After(lib, events).clients[who], r)
  {
    hide After, ReadsOf;
    DetectionsAlwaysTraced(lib, events);
    assert Traced(lib, events, After(lib, events).clients[who]);
  }

  /** A detection that commits has the effect and the reply of running in one
      piece at that moment, if and only if the parcel's boundary and coordinate
      system and the neighbours' IDs and boundaries are still those it read. */
  lemma WinningDetectionIsAtomic(lib: Library, events: seq<Event>, who: nat, ids: Ids, r: Reads)
    requires Textual(lib) && DetectionBy(After(lib, events), who) && After(lib, events).clients[who].stage.Commit?
    requires ReadsOf(lib, events, After(lib, events).clients[who], r)
    requires var s := After(lib, events); var c := s.clients[who]; Execute(s.db, c.stage.tx, c.actor, ids).Ok?
    ensures var s := After(lib, events); var c := s.clients[who]; var done := Execute(s.db, c.stage.tx, c.actor, ids).value;
            Serve(lib, s.db, c.request, c.actor, ids) == (done.db, done.reply) <==> TextsAreCurrent(s.db, c.request, r)
  {
    WinnerRecordsTheSame(lib, events, who, ids);
    CurrentDetection(lib, events, who, r);
    CrsAlwaysClean(lib, events);
    CrsAlwaysClean(lib, events[..r.parcelAt]);
    hide After, Execute, Serve, TextsAreCurrent, RecordedNow, RecordedFrom, Textual, Text.NulFree, ActiveNeighbours;
    var s := After(lib, events);
    var c := s.clients[who];
    if RecordedNow(lib, s.db, c.request, c.actor) == Some(c.stage) {
      SameRecordMeansSameTexts(lib, s.db, c.request, c.actor, r);
    }
  }
}
