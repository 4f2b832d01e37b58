/**
 Proposal transitions and the version in their requests: it plays no part.
 */
module ProposalMoves {
  import opened Basics
  import Text
  import opened Lifecycles
  import opened Records
  import opened Transactions
  import opened Protocol
  import opened Invariants
  import opened Interleaving
  import opened Refinement
  import opened Verdicts

  lemma StartsAlike(lib: Library, d: Db, id: Id, m: ProposalMove, version: nat, actor: Actor)
    ensures Started(lib, d, MoveProposalRequest(id, m), actor) == Started(lib, d, MoveProposalRequest(id, m.(version := version)), actor)
  {
  }

  lemma DecidedAtOnce(lib: Library, d: Db, id: Id, m: ProposalMove, actor: Actor, ids: Ids)
    ensures Decided(d, Started(lib, d, MoveProposalRequest(id, m), actor), actor, ids).Some?
  {
    hide Execute;
  }

  /** Whatever version a transition request names, it has the same effect and the
      same reply: the version compared is the one the service has just read. */
  lemma RequestedVersionIsIgnored(lib: Library, d: Db, id: Id, m: ProposalMove, version: nat, actor: Actor, ids: Ids)
    ensures Serve(lib, d, MoveProposalRequest(id, m), actor, ids) == Serve(lib, d, MoveProposalRequest(id, m.(version := version)), actor, ids)
  {
    hide Serve, Started, Decided;
    StartsAlike(lib, d, id, m, version, actor);
    DecidedAtOnce(lib, d, id, m, actor, ids);
    DecidedAtOnce(lib, d, id, m.(version := version), actor, ids);
    ServedInOneLookUp(lib, d, MoveProposalRequest(id, m), actor, ids);
    ServedInOneLookUp(lib, d, MoveProposalRequest(id, m.(version := version)), actor, ids);
  }

  ghost predicate Answers(d: Db, id: Id, m: ProposalMove, actor: Actor, end: (Db, Reply)) {
    match ProposalMoveVerdict(d, id, m, actor)
    case Some(error) => end == (d, Failure(error))
    case None =>
      && end.1.ProposalReply? && id in d.proposals && id in end.0.proposals
      && end.0.proposals[id].version == d.proposals[id].version + 1 && end.0.proposals[id].state == m.to
  }

  lemma DecisionAnswers(lib: Library, d: Db, id: Id, m: ProposalMove, actor: Actor, ids: Ids)
    requires id in d.proposals ==> d.proposals[id].id == id
    ensures var decided := Decided(d, Started(lib, d, MoveProposalRequest(id, m), actor), actor, ids);
            decided.Some? && Answers(d, id, m, actor, decided.value)
  {
    hide Text.Blank;
  }

  /** A transition request is refused exactly when the proposal is missing, the
      transition is not in the table, the actor may not make it, or the request
      ID is blank; naming a stale version is no reason. */
  lemma MovesAreRefusedExactly(lib: Library, events: seq<Event>, id: Id, m: ProposalMove, actor: Actor, ids: Ids)
    ensures var d := After(lib, events).db; Answers(d, id, m, actor, Serve(lib, d, MoveProposalRequest(id, m), actor, ids))
  {
    hide After, StoreOk, Serve, Decided, Started, Answers, ObservationsOk, ProposalsOk, ConflictsOk;
    AlwaysOk(lib, events);
    var d := After(lib, events).db;
    OpenStore(lib, d);
    RowIds(d, id);
    DecisionAnswers(lib, d, id, m, actor, ids);
    ServedInOneLookUp(lib, d, MoveProposalRequest(id, m), actor, ids);
  }
}
