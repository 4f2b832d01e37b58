/**
 The races and refusals proved possible elsewhere do happen: runs of a concrete
 library, from the empty store, that end in each of them.
 */
module Witnesses {
  import opened Basics
  import Text
  import opened ParcelIds
  import opened Lifecycles
  import opened Polygons
  import opened Topology
  import opened Records
  import opened Analysis
  import opened Transactions
  import opened Protocol
  import opened Invariants
  import opened Interleaving
  import opened Refinement
  import opened Idempotency
  import opened ExactlyOnce
  import opened DetectionInputs
  import opened Chains
  import opened Calls
  import opened Races
  import opened SuggestionRaces
  import opened Supersession
  import opened ParcelHistory
  import opened ProposalMoves
  import opened Verdicts
  import opened Reviews
  import opened Effects
  import opened Samples

  const AUTHOR := Actor(1, "ann", Admin, "r1")
  const JUDGE := Actor(2, "rob", Reviewer, "r2")

  function Plot(code: string): NewParcel {
    NewParcel(code, "plot", "A", "C", "owner", "")
  }

  function Survey(code: string): NewObservation {
    NewObservation(1, code, Evidence("here", 0, "gnss", 0.0, "sum"), None, "")
  }

  const PLAN := NewProposal(1, 1, "A", [], 1000000, "why")
  const DETECTION := DetectRequest(1, 0, "key")

  function PlotRow(id: Id, code: string): Parcel {
    Parcel(id, code, "plot", "A", "C", 1.0, 1, "owner", "active")
  }

  const PLOTS := map[1 := PlotRow(1, "P1"), 2 := PlotRow(2, "P2")]
  const PLANNED := Proposal(1, 1, 1, "A", [], 1000000, 0.0, Draft, "why", 1, 1, None)

  const REGISTERING := [Call(CreateParcelRequest(Plot("P1")), AUTHOR, Ids(1, [])), Call(CreateParcelRequest(Plot("P2")), AUTHOR, Ids(2, []))]
  const SURVEYING := REGISTERING
    + [Call(ImportObservationRequest(Survey("O1")), AUTHOR, Ids(1, [])), Call(ImportObservationRequest(Survey("O2")), AUTHOR, Ids(2, []))]
  const PLANNING := SURVEYING + [Call(CreateProposalRequest(PLAN), AUTHOR, Ids(1, []))]
  const DETECTING := PLANNING + [Call(DETECTION, AUTHOR, Ids(1, [1]))]
  const PREPARING := DETECTING
    + [Call(MoveConflictRequest(1, Confirmed), JUDGE, Ids(0, [])), Call(MoveConflictRequest(1, ResolutionProposed), JUDGE, Ids(0, []))]

  lemma OneMoreCall(lib: Library, calls: seq<Call>, call: Call)
    ensures AfterCalls(lib, calls + [call]) == Serve(lib, AfterCalls(lib, calls), call.request, call.actor, call.ids).0
  {
    assert (calls + [call])[..|calls|] == calls;
  }

  lemma TwoMoreCalls(lib: Library, calls: seq<Call>, one: Call, two: Call)
    ensures AfterCalls(lib, calls + [one, two])
         == Serve(lib, Serve(lib, AfterCalls(lib, calls), one.request, one.actor, one.ids).0, two.request, two.actor, two.ids).0
  {
    hide Serve, AfterCalls;
    OneMoreCall(lib, calls, one);
    OneMoreCall(lib, calls + [one], two);
    assert (calls + [one]) + [two] == calls + [one, two];
  }

  lemma Trimmed()
    ensures Text.TrimSpace("P1") == "P1" && Text.TrimSpace("P2") == "P2" && Text.TrimSpace("plot") == "plot"
    ensures Text.TrimSpace("owner") == "owner" && Text.TrimSpace("C") == "C" && Text.TrimSpace("O1") == "O1" && Text.TrimSpace("O2") == "O2"
    ensures Text.TrimSpace("why") == "why" && Text.TrimSpace("key") == "key" && Text.TrimSpace("new") == "new"
    ensures !Text.Blank("r1") && !Text.Blank("r2")
  {
    hide Text.TrimSpace;
    NothingToTrim("P1");
    NothingToTrim("P2");
    NothingToTrim("plot");
    NothingToTrim("owner");
    NothingToTrim("C");
    NothingToTrim("O1");
    NothingToTrim("O2");
    NothingToTrim("why");
    NothingToTrim("key");
    NothingToTrim("new");
    NothingToTrim("r1");
    NothingToTrim("r2");
  }

  ghost predicate OnlyParcels(d: Db) {
    d.parcels == PLOTS && d.observations == map[] && d.proposals == map[] && d.conflicts == map[] && d.runs == map[]
  }

  lemma ParcelsRegistered()
    ensures OnlyParcels(AfterCalls(SAMPLE, REGISTERING))
  {
    hide Serve, AfterCalls, Text.TrimSpace, Text.Blank, Parsed;
    var one, two := REGISTERING[0], REGISTERING[1];
    TwoMoreCalls(SAMPLE, [], one, two);
    assert [] + [one, two] == REGISTERING;
    NoCallsYet();
    Trimmed();
    TextsParse("A");
    ParcelServed(SAMPLE, EMPTY_DB, Plot("P1"), AUTHOR, Ids(1, []));
    var d := Serve(SAMPLE, EMPTY_DB, one.request, one.actor, one.ids).0;
    assert d.parcels == map[1 := PlotRow(1, "P1")];
    assert !ParcelCodeTaken(d, "P2");
    ParcelServed(SAMPLE, d, Plot("P2"), AUTHOR, Ids(2, []));
  }

  lemma NoCallsYet()
    ensures AfterCalls(SAMPLE, []) == EMPTY_DB
  {
  }

  ghost predicate Surveyed(d: Db) {
    d.parcels == PLOTS && UsablePair(d, 1, 2) && d.proposals == map[] && d.conflicts == map[] && d.runs == map[]
  }

  lemma ObservationsImported()
    ensures Surveyed(AfterCalls(SAMPLE, SURVEYING))
  {
    hide Serve, AfterCalls, Text.TrimSpace, Text.Blank;
    var one, two := SURVEYING[2], SURVEYING[3];
    assert REGISTERING + [one, two] == SURVEYING;
    TwoMoreCalls(SAMPLE, REGISTERING, one, two);
    ParcelsRegistered();
    Trimmed();
    var d := AfterCalls(SAMPLE, REGISTERING);
    var a := ObservationServed(SAMPLE, d, Survey("O1"), AUTHOR, Ids(1, []));
    var e := Serve(SAMPLE, d, one.request, one.actor, one.ids).0;
    assert e.observations == map[1 := a];
    assert !ObservationCodeTaken(e, "O2");
    var b := ObservationServed(SAMPLE, e, Survey("O2"), AUTHOR, Ids(2, []));
  }

  ghost predicate Planned(d: Db) {
    d.parcels == PLOTS && UsablePair(d, 1, 2) && d.proposals == map[1 := PLANNED] && d.conflicts == map[] && d.runs == map[]
  }

  lemma ProposalPlanned()
    ensures Planned(AfterCalls(SAMPLE, PLANNING))
  {
    hide Serve, AfterCalls, Text.TrimSpace, Text.Blank, Parsed;
    OneMoreCall(SAMPLE, SURVEYING, PLANNING[4]);
    assert SURVEYING + [PLANNING[4]] == PLANNING;
    ObservationsImported();
    Trimmed();
    TextsParse("A");
    ProposalServed(SAMPLE, AfterCalls(SAMPLE, SURVEYING), PLAN, AUTHOR, Ids(1, []));
  }

  // ---- The detection ----

  lemma TheOtherPlot(d: Db, other: Parcel)
    requires d.parcels == PLOTS[2 := other] && other.id == 2 && other.crs == "C" && other.state == "active"
    ensures ActiveNeighbours(d, "C", 1) == [other]
  {
    OthersByID(d, "C", 1);
    hide ActiveNeighbours;
    var ns := ActiveNeighbours(d, "C", 1);
    var ids := seq(|ns|, i requires 0 <= i < |ns| => ns[i].id);
    assert other in ns;
    forall i | 0 <= i < |ns| ensures ns[i] == other && ids[i] == 2 {
      assert ns[i] in ns;
    }
    IncreasingIsUnique(ids, [2]);
    assert |ns| == 1 && ns == [other];
  }

  lemma SampleRecorded(lib: Library, parcel: Parcel, proposal: Proposal, n: Parcel, tolerance: Micrometres, key: string, actor: Actor)
    returns (item: Conflict, run: DetectionRun)
    requires lib == SAMPLE && parcel.boundary == "A" && proposal.boundary == "A" && n.id == 2 && n.boundary == "A" && tolerance == 1000000
    ensures AfterReadingNeighbours(lib, proposal, parcel, [n], tolerance, key, actor) == Commit(RecordRun([item], run, parcel.id))
    ensures run.actorId == actor.id && run.key == key
    ensures item.state == Detected && item.suggestion == "A" && item.proposalId == proposal.id
  {
    hide InputHash, RequestHash, Compute, UniqueSorted;
    SampleAnalysis(n, tolerance);
    var hash := InputHash(lib, parcel, proposal, [n], tolerance);
    item := NewConflict(parcel, proposal, hash, "A", OVERLAP);
    run := DetectionRun(0, proposal.id, actor.id, key, RequestHash(lib, proposal.id, tolerance), hash, []);
    assert NewConflicts(parcel, proposal, hash, Analysis.Outcome("A", [OVERLAP])) == [item];
  }

  lemma KeyIsAccepted()
    ensures KeyAccepted("key")
  {
    NothingToTrim("key");
    assert "key"[1..] == "ey" && "ey"[1..] == "y" && "y"[1..] == "";
    assert Text.Utf8Length("y") == 1 && Text.Utf8Length("ey") == 2 && Text.Utf8Length("key") == 3;
  }

  lemma CallsKeepOrder(calls: seq<Call>)
    ensures StoreOk(SAMPLE, AfterCalls(SAMPLE, calls))
  {
    hide StoreOk, AfterCalls, After;
    CallsAreRuns(SAMPLE, calls);
    AlwaysOk(SAMPLE, Events(SAMPLE, calls));
  }

  ghost predicate SuggestionStored(d: Db, state: ConflictState) {
    && d.parcels == PLOTS && UsablePair(d, 1, 2) && d.proposals == map[1 := PLANNED]
    && 1 in d.conflicts && d.conflicts[1].id == 1 && d.conflicts[1].state == state
    && d.conflicts[1].suggestion == "A" && d.conflicts[1].proposalId == 1
    && d.conflicts.Keys == {1} && d.runs.Keys == {1} && d.runs[1].actorId == AUTHOR.id
  }

  lemma ConflictDetectedOnce()
    ensures SuggestionStored(AfterCalls(SAMPLE, DETECTING), Detected)
  {
    hide Serve, AfterCalls, Text.TrimSpace, Text.Blank, StoreOk, KeyAccepted, ActiveNeighbours, AfterReadingNeighbours;
    OneMoreCall(SAMPLE, PLANNING, DETECTING[5]);
    assert PLANNING + [DETECTING[5]] == DETECTING;
    ProposalPlanned();
    Trimmed();
    KeyIsAccepted();
    CallsKeepOrder(PLANNING);
    var d := AfterCalls(SAMPLE, PLANNING);
    assert PLOTS == PLOTS[2 := PlotRow(2, "P2")];
    TheOtherPlot(d, PlotRow(2, "P2"));
    var item, run := SampleRecorded(SAMPLE, PLOTS[1], PLANNED, PlotRow(2, "P2"), 1000000, "key", AUTHOR);
    assert RecordedNow(SAMPLE, d, DETECTION, AUTHOR) == Some(Commit(RecordRun([item], run, 1)));
    assert !RunKeyTaken(d, AUTHOR.id, "key");
    DetectionRecorded(SAMPLE, d, DETECTION, AUTHOR, Ids(1, [1]), item, run, 1);
  }

  lemma SuggestionPrepared()
    ensures SuggestionStored(AfterCalls(SAMPLE, PREPARING), ResolutionProposed)
  {
    hide Serve, AfterCalls, Text.TrimSpace, Text.Blank;
    var one, two := PREPARING[6], PREPARING[7];
    assert DETECTING + [one, two] == PREPARING;
    TwoMoreCalls(SAMPLE, DETECTING, one, two);
    ConflictDetectedOnce();
    Trimmed();
    var d := AfterCalls(SAMPLE, DETECTING);
    ConflictServed(SAMPLE, d, 1, Confirmed, JUDGE, Ids(0, []));
    ConflictServed(SAMPLE, Serve(SAMPLE, d, one.request, one.actor, one.ids).0, 1, ResolutionProposed, JUDGE, Ids(0, []));
  }

  // The run that ends in that store; clients from 8 on are still to come.
  ghost function Prepared(): seq<Event> {
    Events(SAMPLE, PREPARING)
  }

  lemma PreparedStore()
    ensures SuggestionStored(After(SAMPLE, Prepared()).db, ResolutionProposed)
    ensures 8 !in After(SAMPLE, Prepared()).clients && 9 !in After(SAMPLE, Prepared()).clients
  {
    hide After, AfterCalls, Events, SuggestionStored;
    CallsAreRuns(SAMPLE, PREPARING);
    SuggestionPrepared();
    assert |PREPARING| == 8;
  }

  // ---- What happens from there ----

  /** Two observations do end up superseded by each other. */
  lemma ASupersedingLoopHappens()
    ensures exists events :: !AllEnd(LinksOf(After(SAMPLE, events).db))
  {
    hide After, Race, AllEnd, LinksOf, Text.Blank;
    PreparedStore();
    Trimmed();
    RequestsCanSupersedeEachOther(SAMPLE, Prepared(), 1, 2, 8, 9, AUTHOR);
  }

  /** A confirmed renaming does get lost. */
  lemma AnUpdateIsLost()
    ensures exists events, more ::
      && 9 in After(SAMPLE, events + more).clients && After(SAMPLE, events + more).clients[9].stage.Finished?
      && After(SAMPLE, events + more).clients[9].stage.reply.ParcelReply? && After(SAMPLE, events + more).clients[9].stage.reply.parcel.name == "new"
      && 1 in After(SAMPLE, events + more).db.parcels && After(SAMPLE, events + more).db.parcels[1].name == "plot"
  {
    hide After, Race, Text.Blank, Text.TrimSpace;
    PreparedStore();
    Trimmed();
    AnExplicitVersionCanLoseAnUpdate(SAMPLE, Prepared(), 1, "new", "owner", 8, 9, AUTHOR);
    var more := Race(8, EarlyChangeOfOwner(1, 1, "owner", AUTHOR), 1, 9, Renaming(1, "new", AUTHOR), 1);
    assert After(SAMPLE, Prepared() + more).clients[9].stage.reply.parcel.name == "new";
  }

  function Applying(row: Id): Call {
    Call(ApplyRequest(1, "because"), JUDGE, Ids(row, []))
  }

  lemma SuggestionIsApplicable()
    ensures Applicable(SAMPLE, After(SAMPLE, Prepared()).db, 1)
  {
    hide After, Parsed;
    PreparedStore();
    TextsParse("A");
  }

  /** Applications do lose to another application, and to a plain transition. */
  lemma ApplicationsDoLose(rival: Call, looks: nat)
    requires (rival == Applying(2) && looks == 3) || (rival == Call(MoveConflictRequest(1, Resolved), JUDGE, Ids(0, [])) && looks == 1)
    ensures var s := After(SAMPLE, Prepared() + Race(8, Applying(3), 3, 9, rival, looks));
            && 8 in s.clients && s.clients[8].stage == Finished(Failure(Internal))
            && 9 in s.clients && s.clients[9].stage.Finished? && !s.clients[9].stage.reply.Failure?
  {
    hide After, Race, Applicable, Text.Blank, Text.TrimSpace;
    PreparedStore();
    Trimmed();
    SuggestionIsApplicable();
    if looks == 3 {
      ApplicationLosesToApplication(SAMPLE, Prepared(), 1, 8, Applying(3), 9, rival);
    } else {
      ApplicationLosesToTransition(SAMPLE, Prepared(), 1, 8, Applying(3), 9, rival);
    }
  }

  /** A transition that names version 99 of a proposal at version 1 commits. */
  lemma AStaleVersionCommits()
    ensures var d := After(SAMPLE, Prepared()).db; var end := Serve(SAMPLE, d, MoveProposalRequest(1, ProposalMove(Validated, 99, "")), AUTHOR, Ids(0, []));
            && 1 in d.proposals && d.proposals[1].version == 1
            && end.1.ProposalReply? && 1 in end.0.proposals && end.0.proposals[1].version == 2
  {
    hide After, Serve, Text.Blank, Text.TrimSpace;
    PreparedStore();
    Trimmed();
    MovesAreRefusedExactly(SAMPLE, Prepared(), 1, ProposalMove(Validated, 99, ""), AUTHOR, Ids(0, []));
  }

  /** A transition that stores the rationale "new" answers with the old one. */
  lemma AnOldRationaleIsAnswered()
    ensures var d := After(SAMPLE, Prepared()).db; var end := Serve(SAMPLE, d, MoveProposalRequest(1, ProposalMove(Validated, 1, "new")), AUTHOR, Ids(0, []));
            && 1 in end.0.proposals && end.0.proposals[1].rationale == "new"
            && end.1.ProposalReply? && end.1.proposal.rationale == "why"
  {
    hide After, RunAlone, Text.Blank, Text.TrimSpace;
    PreparedStore();
    Trimmed();
    ServedInOneLookUp(SAMPLE, After(SAMPLE, Prepared()).db, MoveProposalRequest(1, ProposalMove(Validated, 1, "new")), AUTHOR, Ids(0, []));
  }

  // A letter with an accent, two bytes in UTF-8.
  const ACCENTED: char := 0xe9 as char

  lemma {:induction false} AccentsTakeTwoBytes(s: string)
    requires forall i :: 0 <= i < |s| ==> s[i] == ACCENTED
    ensures Text.Utf8Length(s) == 2 * |s|
  {
    if s != "" {
      AccentsTakeTwoBytes(s[1..]);
    }
  }

  /** Keys of 65 to 128 characters can be too long, since their bytes are counted. */
  lemma AShortKeyIsRefused(key: string)
    requires 65 <= |key| <= 128 && forall i :: 0 <= i < |key| ==> key[i] == ACCENTED
    ensures var d := After(SAMPLE, Prepared()).db;
            Serve(SAMPLE, d, DetectRequest(1, 0, key), AUTHOR, Ids(0, [])) == (d, Failure(InvalidInput))
  {
    hide After, Prepared, Serve, Text.TrimSpace, Text.Utf8Length, NewRunVerdict;
    AccentsTakeTwoBytes(key);
    NothingToTrim(key);
    RequestsAreJudged(SAMPLE, Prepared(), DetectRequest(1, 0, key), AUTHOR, Ids(0, []));
  }

  // ---- A detection overtaken by an edit of its neighbour ----

  const AGAIN := Call(DetectRequest(1, 0, "new"), JUDGE, Ids(2, [2]))
  const REDRAWING := Call(UpdateParcelRequest(2, SILENT_PATCH.(boundary := Some("B"))), AUTHOR, Ids(0, []))

  lemma LooksOfDetection(d: Db, proposal: Proposal, parcel: Parcel, neighbours: seq<Parcel>, stage: Stage)
    requires 1 in d.proposals && proposal == d.proposals[1] && proposal.id == 1 && proposal.parcelId in d.parcels
    requires parcel == d.parcels[proposal.parcelId] && neighbours == ActiveNeighbours(d, parcel.crs, parcel.id)
    requires proposal.tolerance == 1000000 && RunOf(d, JUDGE.id, "new") == None
    requires stage == AfterReadingNeighbours(SAMPLE, proposal, parcel, neighbours, 1000000, "new", JUDGE)
    ensures LooksTo(SAMPLE, d, NewClient(AGAIN), 4, stage)
  {
    hide RunOf, ActiveNeighbours, AfterReadingNeighbours, RequestHash, Text.TrimSpace, Text.Utf8Length;
    Trimmed();
    NewKeyIsAccepted();
    var c := NewClient(AGAIN);
    var first, second := FindRun(proposal, 1000000, "new"), ReadDetectionParcel(proposal, 1000000, "new");
    var third := ReadNeighbours(proposal, parcel, 1000000, "new");
    hide LooksTo;
    NoLook(SAMPLE, d, c.(stage := stage));
    OneLook(SAMPLE, d, c.(stage := third), stage, 0, stage);
    OneLook(SAMPLE, d, c.(stage := second), third, 1, stage);
    OneLook(SAMPLE, d, c.(stage := first), second, 2, stage);
    OneLook(SAMPLE, d, c, first, 3, stage);
  }

  lemma NewKeyIsAccepted()
    ensures KeyAccepted("new")
  {
    NothingToTrim("new");
    assert "new"[1..] == "ew" && "ew"[1..] == "w" && "w"[1..] == "";
    assert Text.Utf8Length("w") == 1 && Text.Utf8Length("ew") == 2 && Text.Utf8Length("new") == 3;
  }

  function Redrawn(): Parcel {
    PlotRow(2, "P2").(boundary := "B", version := 2)
  }

  lemma LookOfRedrawing(d: Db, tx: Tx)
    requires d.parcels == PLOTS && tx == UpdateParcel(PLOTS[2], PLOTS[2].(boundary := "B", area := 1.0), 1)
    ensures LooksTo(SAMPLE, d, NewClient(REDRAWING), 1, Commit(tx))
  {
    hide Parsed, LooksTo;
    TextsParse("B");
    LookOfUpdate(SAMPLE, d, REDRAWING, tx);
  }

  lemma RedrawingCommits(d: Db, tx: Tx)
    requires d.parcels == PLOTS && tx == UpdateParcel(PLOTS[2], PLOTS[2].(boundary := "B", area := 1.0), 1)
    ensures var done := Execute(d, tx, AUTHOR, REDRAWING.ids); done.Ok? && Becomes(done.value.db, d.(parcels := PLOTS[2 := Redrawn()]))
  {
    hide Text.TrimSpace, Text.Blank;
    Trimmed();
  }

  // The detection has looked four times; then the neighbour is redrawn.
  ghost function Overtaking(): seq<Event> {
    Prepared() + (BothLook(8, AGAIN, 4, 9, REDRAWING, 1) + [Act(9, REDRAWING.ids)])
  }

  // What the detection asks to record, from the rows it has read.
  lemma PendingDetection(d: Db) returns (item: Conflict, run: DetectionRun)
    requires SuggestionStored(d, ResolutionProposed) && RunsOk(d)
    ensures run.actorId == JUDGE.id && run.key == "new"
    ensures AfterReadingNeighbours(SAMPLE, PLANNED, PLOTS[1], [PlotRow(2, "P2")], 1000000, "new", JUDGE) == Commit(RecordRun([item], run, 1))
    ensures LooksTo(SAMPLE, d, NewClient(AGAIN), 4, Commit(RecordRun([item], run, 1)))
  {
    hide AfterReadingNeighbours, ActiveNeighbours, RunOf, LooksTo, RunsOk, UsablePair;
    item, run := SampleRecorded(SAMPLE, PLOTS[1], PLANNED, PlotRow(2, "P2"), 1000000, "new", JUDGE);
    assert PLOTS == PLOTS[2 := PlotRow(2, "P2")];
    TheOtherPlot(d, PlotRow(2, "P2"));
    RunOfFinds(d, JUDGE.id, "new");
    LooksOfDetection(d, PLANNED, PLOTS[1], [PlotRow(2, "P2")], Commit(RecordRun([item], run, 1)));
  }

  lemma Overtaken() returns (item: Conflict, run: DetectionRun)
    ensures run.actorId == JUDGE.id && run.key == "new"
    ensures AfterReadingNeighbours(SAMPLE, PLANNED, PLOTS[1], [PlotRow(2, "P2")], 1000000, "new", JUDGE) == Commit(RecordRun([item], run, 1))
    ensures var s := After(SAMPLE, Overtaking());
            && 8 in s.clients && s.clients[8] == NewClient(AGAIN).(stage := Commit(RecordRun([item], run, 1)))
            && s.db.parcels == PLOTS[2 := Redrawn()] && s.db.proposals == map[1 := PLANNED]
            && s.db.conflicts.Keys == {1} && s.db.runs.Keys == {1} && s.db.runs[1].actorId == AUTHOR.id
  {
    hide After, LooksTo, StoreOk, RunsOk, UsablePair, Execute, AfterReadingNeighbours, Prepared, BothLook;
    PreparedStore();
    AlwaysOk(SAMPLE, Prepared());
    var s := After(SAMPLE, Prepared());
    OpenStore(SAMPLE, s.db);
    item, run := PendingDetection(s.db);
    var tx := UpdateParcel(PLOTS[2], PLOTS[2].(boundary := "B", area := 1.0), 1);
    LookOfRedrawing(s.db, tx);
    BothHaveLooked(SAMPLE, s, 8, AGAIN, 4, 9, REDRAWING, 1, Commit(RecordRun([item], run, 1)), Commit(tx));
    var looks, last := BothLook(8, AGAIN, 4, 9, REDRAWING, 1), [Act(9, REDRAWING.ids)];
    AfterMore(SAMPLE, Prepared(), looks + last);
    PlayedOn(SAMPLE, s, looks, last);
    var s4 := Played(SAMPLE, s, looks);
    RedrawingCommits(s4.db, tx);
    assert last[1..] == [];
    assert Played(SAMPLE, s4, last) == Apply(SAMPLE, s4, last[0]);
  }

  /** A detection does commit what it would no longer record: its neighbour has
      been redrawn between its look-up and its commit. */
  lemma ADetectionIsOvertaken()
    ensures var s := After(SAMPLE, Overtaking());
            && DetectionBy(s, 8) && s.clients[8].stage.Commit?
            && var c := s.clients[8]; var done := Execute(s.db, c.stage.tx, c.actor, AGAIN.ids);
               done.Ok? && Serve(SAMPLE, s.db, c.request, c.actor, AGAIN.ids) != (done.value.db, done.value.reply)
  {
    hide After, Overtaking, Execute, Serve, RecordedNow, AfterReadingNeighbours, ActiveNeighbours, Text.TrimSpace, Text.Blank, Textual;
    var item, run := Overtaken();
    Trimmed();
    var s := After(SAMPLE, Overtaking());
    var d, q := s.db, AGAIN.request;
    assert !RunKeyTaken(d, JUDGE.id, "new");
    OneItemRecorded(d, item, run, 1, JUDGE, AGAIN.ids);
    WinnerRecordsTheSame(SAMPLE, Overtaking(), 8, AGAIN.ids);
    TheOtherPlot(d, Redrawn());
    var r := Reads(PLOTS[1], [PlotRow(2, "P2")], 0, 0);
    assert RecordedFrom(SAMPLE, d.proposals[1], q, JUDGE, r) == s.clients[8].stage;
    assert r.neighbours[0].boundary != [Redrawn()][0].boundary && !SameNeighbours(r.neighbours, [Redrawn()]);
    if RecordedNow(SAMPLE, d, q, JUDGE) == Some(s.clients[8].stage) {
      SampleIsTextual();
      SameRecordMeansSameTexts(SAMPLE, d, q, JUDGE, r);
    }
  }
}
