/**
 The tolerance of a detection: the one its request names, or the proposal's
 own when it names none, in the hash and in the analysis alike.
 */
module Tolerances {
  import opened Basics
  import Text
  import opened Records
  import opened Analysis
  import opened Transactions
  import opened Protocol
  import opened Growth
  import opened Invariants
  import opened Interleaving
  import opened Idempotency
  import opened ExactlyOnce
  import opened DetectionInputs
  import opened StoredRuns
  import opened Reviews

  // Zero micrometres name no tolerance.
  ghost predicate Names(d: Db, q: Request, tolerance: Micrometres)
    requires q.DetectRequest? && q.proposalId in d.proposals
  {
    && (q.tolerance != 0 ==> tolerance == q.tolerance)
    && (q.tolerance == 0 ==> tolerance == d.proposals[q.proposalId].tolerance)
  }

  lemma WantedNames(lib: Library, d: Db, q: Request) returns (tolerance: Micrometres)
    requires q.DetectRequest? && q.proposalId in d.proposals
    ensures Names(d, q, tolerance) && WantedHash(lib, d, q) == RequestHash(lib, q.proposalId, tolerance)
  {
    tolerance := EffectiveTolerance(q.tolerance, d.proposals[q.proposalId]);
  }

  // The run stored for a detection: its request hash and its analysis use the tolerance the request names.
  ghost predicate RecordedAt(lib: Library, events: seq<Event>, d: Db, q: Request, run: DetectionRun, b: Basis)
    requires q.DetectRequest?
  {
    && q.proposalId in d.proposals && Names(d, q, b.tolerance)
    && run.proposalId == q.proposalId && run.requestHash == RequestHash(lib, q.proposalId, b.tolerance)
    && BasedOn(lib, d, run, b) && ReadAt(lib, events, d.proposals[q.proposalId].parcelId, b.rows)
  }

  /** A detection that commits hashes and analyses with the tolerance its request
      names, or with the proposal's when it names none. */
  lemma CommitsAtTheNamedTolerance(lib: Library, events: seq<Event>, who: nat, ids: Ids)
    requires DetectionBy(After(lib, events), who) && Commits(After(lib, events), who, ids)
    ensures var s := After(lib, events); var d' := Apply(lib, s, Act(who, ids)).db;
            ids.row in d'.runs && exists b :: RecordedAt(lib, events, d', s.clients[who].request, d'.runs[ids.row], b)
  {
    hide StoreOk, DetectionOk, ReadsOf, Execute, BasedOn, After, ReadAt, RecordedFrom, Later;
    var s := After(lib, events);
    var c, d := s.clients[who], s.db;
    AlwaysOk(lib, events);
    DetectionsAlwaysOk(lib, events);
    EventIsOk(lib, s, Act(who, ids));
    var d' := Apply(lib, s, Act(who, ids)).db;
    PendingRunsWereRead(lib, events, who);
    var r :| ReadsOf(lib, events, c, r);
    PendingRun(lib, d, c);
    RunsWritten(d, c.stage.tx, c.actor, ids);
    var run := d'.runs[ids.row];
    assert Holds(d', run) && !Holds(d, run);
    ReadsMean(lib, events, c, r);
    RecordedBasis(lib, d, c, ids, r, run);
    var b: Basis :| b.rows == r && b.tolerance == EffectiveTolerance(c.request.tolerance, d.proposals[c.request.proposalId]) && BasedOn(lib, d', run, b);
    SameColumns(d, d', c.request.proposalId);
    BasisHash(lib, d', run, b);
    assert RecordedAt(lib, events, d', c.request, run, b);
  }

  lemma ReadsMean(lib: Library, events: seq<Event>, c: Client, r: Reads)
    requires ReadsOf(lib, events, c, r)
    ensures c.request.DetectRequest? && c.request.proposalId in After(lib, events).db.proposals
    ensures var proposal := After(lib, events).db.proposals[c.request.proposalId];
            ReadAt(lib, events, proposal.parcelId, r) && RecordedFrom(lib, proposal, c.request, c.actor, r) == c.stage
  {
    hide After, ReadAt, RecordedFrom;
  }

  lemma SameColumns(d: Db, d': Db, id: Id)
    requires Later(d, d') && id in d.proposals
    ensures id in d'.proposals && d'.proposals[id].tolerance == d.proposals[id].tolerance && d'.proposals[id].parcelId == d.proposals[id].parcelId
  {
    assert ProposalLater(d.proposals[id], d'.proposals[id]);
  }

  lemma BasisHash(lib: Library, d: Db, run: DetectionRun, b: Basis)
    requires BasedOn(lib, d, run, b)
    ensures run.proposalId in d.proposals && run.requestHash == RequestHash(lib, run.proposalId, b.tolerance)
  {
    hide RequestHash, InputHash, Found, Told;
  }

  ghost predicate CollisionFree(lib: Library) {
    forall x, y :: lib.digest(x) == lib.digest(y) ==> x == y
  }

  // A run with the results of a reply, recorded at the tolerance of the request.
  ghost predicate ReportsRun(lib: Library, events: seq<Event>, c: Client, run: DetectionRun)
    requires c.request.DetectRequest? && c.stage.Finished? && c.stage.reply.ConflictsReply?
  {
    var d := After(lib, events).db;
    && Holds(d, run) && RunFor(run, c.actor, c.request) && run.resultIds == IdsOf(c.stage.reply.conflicts)
    && exists b :: RecordedAt(lib, events, d, c.request, run, b)
  }

  /** With a collision-free digest every success, recorded or replayed, reports a
      run analysed at the tolerance that its own request names. */
  lemma SuccessesAreAtTheNamedTolerance(lib: Library, events: seq<Event>, who: nat)
    requires CollisionFree(lib) && Succeeded(After(lib, events), who)
    ensures exists run :: ReportsRun(lib, events, After(lib, events).clients[who], run)
  {
    hide After, StoreOk, RequestHash, BasedOn, ReadAt, WantedHash, DetectionsOk, CollisionFree;
    var s := After(lib, events);
    var c, d := s.clients[who], s.db;
    DetectionsAlwaysOk(lib, events);
    SuccessIsReported(lib, s, who);
    var run :| Holds(d, run) && RunFor(run, c.actor, c.request) && run.requestHash == WantedHash(lib, d, c.request)
      && run.resultIds == IdsOf(c.stage.reply.conflicts);
    StoredRunsTellTheirFindings(lib, events, run.id);
    var b :| BasedOn(lib, d, run, b) && ReadAt(lib, events, d.proposals[run.proposalId].parcelId, b.rows);
    BasisHash(lib, d, run, b);
    var tolerance := WantedNames(lib, d, c.request);
    HashesName(lib, run.proposalId, b.tolerance, c.request.proposalId, tolerance);
    assert RecordedAt(lib, events, d, c.request, run, b);
    assert ReportsRun(lib, events, c, run);
  }

  lemma HashesName(lib: Library, p: Id, t: Micrometres, q: Id, u: Micrometres)
    requires CollisionFree(lib) && RequestHash(lib, p, t) == RequestHash(lib, q, u)
    ensures p == q && t == u
  {
    hide RequestHash;
    RequestHashNamesTheRequest(lib, p, t, q, u);
  }

  /** With a collision-free digest two successes with one actor and key are for one
      proposal and one tolerance; what they name, they name alike. */
  lemma OneToleranceForAKey(lib: Library, events: seq<Event>, a: nat, b: nat)
    requires CollisionFree(lib) && Succeeded(After(lib, events), a) && Succeeded(After(lib, events), b) && SharedKey(After(lib, events), a, b)
    ensures var s := After(lib, events); var p, q := s.clients[a].request, s.clients[b].request;
            && p.proposalId == q.proposalId && p.proposalId in s.db.proposals
            && (p.tolerance != 0 && q.tolerance != 0 ==> p.tolerance == q.tolerance)
            && (p.tolerance != 0 && q.tolerance == 0 ==> p.tolerance == s.db.proposals[p.proposalId].tolerance)
  {
    hide After, RequestHash, WantedHash, CollisionFree;
    SuccessesAgree(lib, events, a, b);
    var s := After(lib, events);
    var t := WantedNames(lib, s.db, s.clients[a].request);
    var u := WantedNames(lib, s.db, s.clients[b].request);
    HashesName(lib, s.clients[a].request.proposalId, t, s.clients[b].request.proposalId, u);
  }
}
