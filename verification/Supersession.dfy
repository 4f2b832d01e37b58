/**
 Replacement links between observations: kept for ever, ending at a live
 observation of the same parcel when requests run one after another, and
 exactly when they can loop otherwise.
 */
module Supersession {
  import opened Basics
  import Text
  import opened Lifecycles
  import opened Records
  import opened Analysis
  import opened Transactions
  import opened Protocol
  import opened Growth
  import opened Invariants
  import opened DetectionWrites
  import opened Interleaving
  import opened Refinement
  import opened Chains
  import opened Calls
  import opened Races

  function LinksOf(d: Db): Links {
    map k | k in d.observations && d.observations[k].replacedBy.Some? :: d.observations[k].replacedBy.value
  }

  // An observation nobody needs to look past, or one that says where to look.
  ghost predicate Leads(d: Db, k: Id) {
    k in d.observations && (d.observations[k].state == Superseded ==> d.observations[k].replacedBy.Some?)
  }

  ghost predicate TargetsLead(d: Db) {
    forall k :: k in LinksOf(d) ==> Leads(d, LinksOf(d)[k])
  }

  ghost predicate PendingLeads(d: Db, stage: Stage) {
    stage.Commit? && stage.tx.MoveObservation? && stage.tx.replacement.Some? ==> Leads(d, stage.tx.replacement.value)
  }

  predicate Supersedes(tx: Tx) {
    tx.MoveObservation? && tx.replacement.Some?
  }

  // ---- What a transaction does to the links ----

  lemma MovedLinks(lib: Library, d: Db, tx: Tx, actor: Actor, ids: Ids)
    requires StoreOk(lib, d) && TxOk(lib, d, tx, actor) && tx.MoveObservation? && Execute(d, tx, actor, ids).Ok?
    ensures var d' := Execute(d, tx, actor, ids).value.db;
            if Supersedes(tx) then tx.observation.id !in LinksOf(d) && LinksOf(d') == LinksOf(d)[tx.observation.id := tx.replacement.value]
            else LinksOf(d') == LinksOf(d)
  {
    hide ParcelsOk, ObservationsOk, ProposalsOk, ConflictsOk, GroundedOk, RunsOk, OneToOne, Origins, Applied;
    GuardSeesTheCopy(lib, d, tx, actor, ids);
    assert LinkOk(d, tx.observation.id);
  }

  lemma OtherLinks(lib: Library, d: Db, tx: Tx, actor: Actor, ids: Ids)
    requires TxOk(lib, d, tx, actor) && !tx.MoveObservation? && Execute(d, tx, actor, ids).Ok?
    ensures LinksOf(Execute(d, tx, actor, ids).value.db) == LinksOf(d)
  {
    hide InsertConflicts, RowsAdded;
    if tx.RecordRun? {
      InsertingAdds(d, tx.items, ids.items, actor, tx.parcelId);
    }
  }

  lemma CommitLinks(lib: Library, d: Db, tx: Tx, actor: Actor, ids: Ids)
    requires StoreOk(lib, d) && TxOk(lib, d, tx, actor) && Execute(d, tx, actor, ids).Ok?
    ensures var d' := Execute(d, tx, actor, ids).value.db;
            if Supersedes(tx) then tx.observation.id !in LinksOf(d) && LinksOf(d') == LinksOf(d)[tx.observation.id := tx.replacement.value]
            else LinksOf(d') == LinksOf(d)
  {
    if tx.MoveObservation? {
      MovedLinks(lib, d, tx, actor, ids);
    } else {
      OtherLinks(lib, d, tx, actor, ids);
    }
  }

  lemma CommitKeepsLeading(lib: Library, d: Db, tx: Tx, actor: Actor, ids: Ids, k: Id)
    requires StoreOk(lib, d) && TxOk(lib, d, tx, actor) && Execute(d, tx, actor, ids).Ok? && Leads(d, k)
    ensures Leads(Execute(d, tx, actor, ids).value.db, k)
  {
    hide InsertConflicts;
    hide ParcelsOk, ObservationsOk, ProposalsOk, ConflictsOk, GroundedOk, RunsOk, OneToOne, Origins, Applied, RowsAdded;
    if tx.RecordRun? {
      InsertingAdds(d, tx.items, ids.items, actor, tx.parcelId);
    } else if tx.MoveObservation? {
      GuardSeesTheCopy(lib, d, tx, actor, ids);
      assert LinkOk(d, tx.observation.id);
    }
  }

  lemma StepKeepsLeading(lib: Library, d: Db, c: Client, ids: Ids, k: Id)
    requires StoreOk(lib, d) && StageOk(lib, d, c.stage, c.actor) && Leads(d, k)
    ensures Leads(Step(lib, d, c, ids).0, k)
  {
    hide StoreOk, TxOk, Execute, Reading, Leads;
    if c.stage.Commit? && Execute(d, c.stage.tx, c.actor, ids).Ok? {
      CommitKeepsLeading(lib, d, c.stage.tx, c.actor, ids, k);
    }
  }

  lemma ReadingLeads(lib: Library, d: Db, c: Client)
    requires !c.stage.Commit?
    ensures PendingLeads(d, Reading(lib, d, c))
  {
    hide Compute, InputHash, RequestHash, NewConflicts, RunOf, ActiveNeighbours, ConflictsByIds, KeyAccepted;
  }

  lemma StepKeepsTargets(lib: Library, d: Db, c: Client, ids: Ids)
    requires StoreOk(lib, d) && StageOk(lib, d, c.stage, c.actor) && TargetsLead(d) && PendingLeads(d, c.stage)
    ensures var (d', c') := Step(lib, d, c, ids); TargetsLead(d') && PendingLeads(d', c'.stage)
  {
    hide StoreOk, TxOk, Execute, Reading, Leads, LinksOf;
    if c.stage.Commit? {
      var tx := c.stage.tx;
      if Execute(d, tx, c.actor, ids).Ok? {
        CommitLinks(lib, d, tx, c.actor, ids);
        var d' := Execute(d, tx, c.actor, ids).value.db;
        forall k | k in LinksOf(d') ensures Leads(d', LinksOf(d')[k]) {
          CommitKeepsLeading(lib, d, tx, c.actor, ids, LinksOf(d')[k]);
        }
      }
    } else {
      ReadingLeads(lib, d, c);
    }
  }

  ghost predicate ReplacementsLead(s: System) {
    TargetsLead(s.db) && forall who :: who in s.clients ==> PendingLeads(s.db, s.clients[who].stage)
  }

  lemma EventKeepsReplacements(lib: Library, s: System, event: Event)
    requires SystemOk(lib, s) && ReplacementsLead(s)
    ensures ReplacementsLead(Apply(lib, s, event))
  {
    hide StoreOk, StageOk, Step, Leads, TargetsLead;
    if event.Act? && Busy(s, event.who) {
      var c := s.clients[event.who];
      StepKeepsTargets(lib, s.db, c, event.ids);
      var s' := Apply(lib, s, event);
      forall who | who in s'.clients ensures PendingLeads(s'.db, s'.clients[who].stage) {
        if who != event.who && Supersedes(TxOf(s.clients[who].stage)) {
          StepKeepsLeading(lib, s.db, c, event.ids, s.clients[who].stage.tx.replacement.value);
        }
      }
    }
  }

  // The pending transaction, or some transaction that supersedes nothing.
  function TxOf(stage: Stage): Tx {
    if stage.Commit? then stage.tx else InsertParcel(Parcel(0, "", "", "", "", 0.0, 0, "", ""))
  }

  lemma {:induction false} ReplacementsAlwaysLead(lib: Library, events: seq<Event>)
    ensures ReplacementsLead(After(lib, events))
  {
    hide SystemOk, ReplacementsLead, Apply;
    if events != [] {
      var front := events[..|events| - 1];
      ReplacementsAlwaysLead(lib, front);
      AlwaysOk(lib, front);
      EventKeepsReplacements(lib, After(lib, front), events[|events| - 1]);
    } else {
      NoReplacementsLead(lib);
    }
  }

  lemma NoReplacementsLead(lib: Library)
    ensures ReplacementsLead(After(lib, []))
  {
  }

  // ---- Links are kept; chains stay on their parcel ----

  /** A replacement, once set, is never changed or removed. */
  lemma LinksAreKept(lib: Library, events: seq<Event>, n: nat)
    requires n <= |events|
    ensures var old', new' := LinksOf(After(lib, events[..n]).db), LinksOf(After(lib, events).db);
            forall k :: k in old' ==> k in new' && new'[k] == old'[k]
  {
    hide After;
    RunsGoForward(lib, events, n);
    AlwaysOk(lib, events[..n]);
    var d, d' := After(lib, events[..n]).db, After(lib, events).db;
    forall k | k in LinksOf(d) ensures k in LinksOf(d') && LinksOf(d')[k] == LinksOf(d)[k] {
      assert LinkOk(d, k);
      assert ObservationLater(d.observations[k], d'.observations[k]);
    }
  }

  ghost predicate LiveOn(d: Db, k: Id, parcel: Id) {
    k in d.observations && d.observations[k].parcelId == parcel && d.observations[k].state != Superseded
  }

  // Where a chain ends, there is a live observation of the parcel it started on.
  lemma {:induction false} ChainStaysOnParcel(d: Db, k: Id, n: nat)
    requires LinksOk(d) && TargetsLead(d) && Leads(d, k) && EndsAfter(LinksOf(d), k, n)
    ensures LiveOn(d, Followed(LinksOf(d), k, n).value, d.observations[k].parcelId)
    decreases n
  {
    if n > 0 {
      assert LinkOk(d, k);
      ChainStaysOnParcel(d, LinksOf(d)[k], n - 1);
    }
  }

  ghost predicate LeadsToLive(d: Db, k: Id) {
    && k in d.observations
    && exists n: nat :: Followed(LinksOf(d), k, n).Some? && LiveOn(d, Followed(LinksOf(d), k, n).value, d.observations[k].parcelId)
  }

  lemma EndingChainIsLive(lib: Library, d: Db, k: Id)
    requires StoreOk(lib, d) && TargetsLead(d) && AllEnd(LinksOf(d)) && k in LinksOf(d)
    ensures LeadsToLive(d, k)
  {
    assert Ends(LinksOf(d), k);
    var n: nat :| EndsAfter(LinksOf(d), k, n);
    ChainStaysOnParcel(d, k, n);
  }

  /** While every chain ends, superseding x by y keeps it so exactly when the
      replacements already recorded do not lead from y back to x. */
  lemma SupersedingKeepsEnds(lib: Library, events: seq<Event>, who: nat, ids: Ids)
    requires Busy(After(lib, events), who) && Supersedes(TxOf(After(lib, events).clients[who].stage))
    requires var s := After(lib, events); var c := s.clients[who]; Execute(s.db, c.stage.tx, c.actor, ids).Ok?
    requires AllEnd(LinksOf(After(lib, events).db))
    ensures var s := After(lib, events); var tx := s.clients[who].stage.tx;
            AllEnd(LinksOf(Apply(lib, s, Act(who, ids)).db))
            <==> !Reaches(LinksOf(s.db), tx.replacement.value, tx.observation.id)
  {
    hide After, LinksOf, StoreOk, TxOk, Execute, AllEnd, Reaches;
    AlwaysOk(lib, events);
    var s := After(lib, events);
    var c := s.clients[who];
    CommitLinks(lib, s.db, c.stage.tx, c.actor, ids);
    NewLinkKeepsEnds(LinksOf(s.db), c.stage.tx.observation.id, c.stage.tx.replacement.value);
  }

  /** Wherever every chain ends, it ends at a live observation of its parcel. */
  lemma ChainsEndLive(lib: Library, events: seq<Event>, k: Id)
    requires AllEnd(LinksOf(After(lib, events).db)) && k in LinksOf(After(lib, events).db)
    ensures LeadsToLive(After(lib, events).db, k)
  {
    hide After, StoreOk, LinksOf;
    AlwaysOk(lib, events);
    ReplacementsAlwaysLead(lib, events);
    EndingChainIsLive(lib, After(lib, events).db, k);
  }

  // ---- One request after another ----

  // Nobody else moves the replacement between the check and the commit.
  ghost predicate StillCurrent(d: Db, stage: Stage) {
    stage.Commit? && stage.tx.MoveObservation? ==> ReadsAreCurrent(d, stage.tx)
  }

  lemma ReadingIsCurrent(lib: Library, d: Db, c: Client)
    requires !c.stage.Commit?
    ensures StillCurrent(d, Reading(lib, d, c))
  {
    hide Compute, InputHash, RequestHash, NewConflicts, RunOf, ActiveNeighbours, ConflictsByIds, KeyAccepted;
  }

  lemma CurrentSupersedingEnds(lib: Library, d: Db, tx: Tx, actor: Actor, ids: Ids)
    requires StoreOk(lib, d) && TxOk(lib, d, tx, actor) && Execute(d, tx, actor, ids).Ok?
    requires AllEnd(LinksOf(d)) && StillCurrent(d, Commit(tx))
    ensures AllEnd(LinksOf(Execute(d, tx, actor, ids).value.db))
  {
    hide Execute, AllEnd, Reaches;
    CommitLinks(lib, d, tx, actor, ids);
    if Supersedes(tx) {
      var x, y := tx.observation.id, tx.replacement.value;
      assert LinkOk(d, y);
      NothingReachedFromAnEnd(LinksOf(d), y, x);
      NewLinkKeepsEnds(LinksOf(d), x, y);
    }
  }

  lemma NothingReachedFromAnEnd(links: Links, y: Id, x: Id)
    requires y !in links && x != y
    ensures !Reaches(links, y, x)
  {
  }

  ghost predicate Sequential(lib: Library, d: Db) {
    StoreOk(lib, d) && TargetsLead(d) && AllEnd(LinksOf(d))
  }

  lemma {:induction false} AloneKeepsEnds(lib: Library, d: Db, c: Client, ids: Ids)
    requires Sequential(lib, d) && StageOk(lib, d, c.stage, c.actor) && PendingLeads(d, c.stage) && StillCurrent(d, c.stage)
    ensures Sequential(lib, RunAlone(lib, d, c, ids).0)
    decreases Remaining(c)
  {
    hide StoreOk, TxOk, Execute, Reading, TargetsLead, AllEnd, LinksOf, PendingLeads, StillCurrent, Remaining;
    if !c.stage.Finished? {
      StepIsOk(lib, d, c, ids);
      StepKeepsTargets(lib, d, c, ids);
      StepsRunOut(lib, d, c, ids);
      var (d', c') := Step(lib, d, c, ids);
      if c.stage.Commit? {
        if Execute(d, c.stage.tx, c.actor, ids).Ok? {
          CurrentSupersedingEnds(lib, d, c.stage.tx, c.actor, ids);
        }
        NotCommitting(d', c'.stage);
      } else {
        ReadingIsCurrent(lib, d, c);
      }
      AloneKeepsEnds(lib, d', c', ids);
    }
  }

  lemma NotCommitting(d: Db, stage: Stage)
    requires !stage.Commit?
    ensures StillCurrent(d, stage)
  {
  }

  lemma {:induction false} CallsKeepEnds(lib: Library, calls: seq<Call>)
    ensures Sequential(lib, AfterCalls(lib, calls))
  {
    if calls == [] {
      EmptyStoreIsOk(lib);
    } else {
      hide Sequential, RunAlone;
      var last := calls[|calls| - 1];
      CallsKeepEnds(lib, calls[..|calls| - 1]);
      AloneKeepsEnds(lib, AfterCalls(lib, calls[..|calls| - 1]), Client(last.request, last.actor, Start), last.ids);
    }
  }

  /** With requests running one after another the replacements have no cycle, and
      from any replaced observation they lead to a live one of the same parcel. */
  lemma SequentialChainsEndLive(lib: Library, calls: seq<Call>)
    ensures var d := AfterCalls(lib, calls); var links := LinksOf(d);
            Acyclic(links) && forall k :: k in links ==> LeadsToLive(d, k)
  {
    hide AfterCalls, LinksOf, StoreOk;
    CallsKeepEnds(lib, calls);
    var d := AfterCalls(lib, calls);
    EndingIsAcyclic(LinksOf(d));
    forall k | k in LinksOf(d) ensures LeadsToLive(d, k) {
      EndingChainIsLive(lib, d, k);
    }
  }

  // ---- One request beside another ----

  function Superseding(d: Db, x: Id, y: Id, actor: Actor): Call
    requires x in d.observations
  {
    Call(MoveObservationRequest(x, ObservationMove(Superseded, d.observations[x].version, Some(y), "")), actor, Ids(0, []))
  }

  predicate UsablePair(d: Db, x: Id, y: Id) {
    && x in d.observations && y in d.observations && x != y
    && d.observations[x].id == x && d.observations[y].id == y
    && d.observations[x].parcelId == d.observations[y].parcelId
    && d.observations[x].state == Usable && d.observations[y].state == Usable
  }

  lemma LooksOfSuperseding(lib: Library, d: Db, x: Id, y: Id, actor: Actor, tx: Tx)
    requires UsablePair(d, x, y) && MayMoveObservation(actor.role)
    requires tx == MoveObservation(d.observations[x], Superseded, Some(y), Text.TrimSpace(""))
    ensures LooksTo(lib, d, NewClient(Superseding(d, x, y, actor)), 2, Commit(tx))
  {
    var c, first := NewClient(Superseding(d, x, y, actor)), ReadReplacement(d.observations[x], y, Text.TrimSpace(""));
    NoLook(lib, d, c.(stage := Commit(tx)));
    OneLook(lib, d, c.(stage := first), Commit(tx), 0, Commit(tx));
    OneLook(lib, d, c, first, 1, Commit(tx));
  }

  lemma BothSupersede(d: Db, x: Id, y: Id, actor: Actor, ids: Ids, note: string)
    requires UsablePair(d, x, y) && !Text.Blank(actor.requestId)
    ensures var first := Execute(d, MoveObservation(d.observations[y], Superseded, Some(x), note), actor, ids);
            && first.Ok?
            && var second := Execute(first.value.db, MoveObservation(d.observations[x], Superseded, Some(y), note), actor, ids);
               second.Ok? && LinksOf(second.value.db) == LinksOf(d)[y := x][x := y]
  {
  }

  /** Two requests that look before either commits can supersede any two usable
      observations of one parcel by each other: the check of the replacement is
      outside the transaction. */
  lemma RequestsCanSupersedeEachOther(lib: Library, events: seq<Event>, x: Id, y: Id, a: nat, b: nat, actor: Actor)
    requires UsablePair(After(lib, events).db, x, y) && MayMoveObservation(actor.role) && !Text.Blank(actor.requestId)
    requires a != b && a !in After(lib, events).clients && b !in After(lib, events).clients
    ensures var d := After(lib, events).db;
            var links := LinksOf(After(lib, events + Race(a, Superseding(d, x, y, actor), 2, b, Superseding(d, y, x, actor), 2)).db);
            x in links && links[x] == y && y in links && links[y] == x && !Acyclic(links) && !AllEnd(links)
  {
    var d, note := After(lib, events).db, Text.TrimSpace("");
    var qa, qb := Superseding(d, x, y, actor), Superseding(d, y, x, actor);
    var ta, tb := MoveObservation(d.observations[x], Superseded, Some(y), note), MoveObservation(d.observations[y], Superseded, Some(x), note);
    LooksOfSuperseding(lib, d, x, y, actor, ta);
    LooksOfSuperseding(lib, d, y, x, actor, tb);
    hide After, LooksTo, Execute, LinksOf;
    RaceEnds(lib, events, a, qa, 2, b, qb, 2, ta, tb);
    BothSupersede(d, x, y, actor, qa.ids, note);
    LoopHasNoEnd(LinksOf(After(lib, events + Race(a, qa, 2, b, qb, 2)).db), x, y);
  }

  lemma LoopHasNoEnd(links: Links, x: Id, y: Id)
    requires x in links && links[x] == y && y in links && links[y] == x
    ensures !Acyclic(links) && !AllEnd(links)
  {
    assert Followed(links, x, 1) == Some(y) && Followed(links, y, 1) == Some(x);
    FollowedTwice(links, x, 1, 1);
    assert Followed(links, x, 2) == Some(x);
    if AllEnd(links) {
      EndingIsAcyclic(links);
    }
  }
}
