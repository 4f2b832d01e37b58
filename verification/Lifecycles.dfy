/**
 Review lifecycles: proposals, conflicts and observations, with the ranks that
 make the conflict graph acyclic and tie a proposal's state to its version.
 */
module Lifecycles {

  datatype Role = Surveyor | GisAnalyst | Reviewer | Auditor | Admin | OtherRole(roleName: string)

  // A text that names no state is kept as such: it may arrive in a request.
  datatype ProposalState =
    | Draft | Validated | Submitted | Reviewed | Revision | Accepted | Rejected
    | UnknownProposalState(text: string)

  datatype ConflictState =
    | Detected | Confirmed | FalsePositive | ResolutionProposed | Resolved | Closed
    | UnknownConflictState(text: string)

  datatype ObservationState = Usable | Refused | Superseded | UnknownObservationState(text: string)

  predicate ValidProposalState(s: ProposalState) {
    !s.UnknownProposalState?
  }

  predicate CanProposalTransition(from: ProposalState, to: ProposalState) {
    match from
    case Draft => to == Validated
    case Validated => to == Submitted
    case Submitted => to == Reviewed
    case Reviewed => to == Accepted || to == Rejected || to == Revision
    case Revision => to == Draft
    case _ => false
  }

  predicate CanConflictTransition(from: ConflictState, to: ConflictState) {
    match from
    case Detected => to == Confirmed || to == FalsePositive
    case Confirmed => to == ResolutionProposed
    case FalsePositive => to == Closed
    case ResolutionProposed => to == Resolved
    case Resolved => to == Closed
    case _ => false
  }

  // "accepted" is Usable and "rejected" is Refused.
  predicate CanObservationTransition(from: ObservationState, to: ObservationState) {
    || (from == Usable && (to == Refused || to == Superseded))
    || (from == Refused && to == Usable)
  }

  predicate IsReviewTransition(to: ProposalState) {
    to == Reviewed || to == Accepted || to == Rejected || to == Revision
  }

  predicate IsAuthoringTransition(to: ProposalState) {
    to == Validated || to == Submitted || to == Draft
  }

  predicate MayMoveProposal(author: nat, to: ProposalState, actor: nat, role: Role) {
    if IsAuthoringTransition(to) then actor == author || role == Admin
    else IsReviewTransition(to) && (role == Reviewer || role == Admin) && actor != author
  }

  // ---- The tables, pair by pair ----

  const PROPOSAL_STEPS := {(Draft, Validated), (Validated, Submitted), (Submitted, Reviewed), (Reviewed, Accepted),
                           (Reviewed, Rejected), (Reviewed, Revision), (Revision, Draft)}

  const CONFLICT_STEPS := {(Detected, Confirmed), (Detected, FalsePositive), (Confirmed, ResolutionProposed),
                           (FalsePositive, Closed), (ResolutionProposed, Resolved), (Resolved, Closed)}

  const OBSERVATION_STEPS := {(Usable, Refused), (Usable, Superseded), (Refused, Usable)}

  const AUTHORING := {Validated, Submitted, Draft}
  const REVIEWING := {Reviewed, Accepted, Rejected, Revision}

  // A transition is allowed exactly when it is one of the listed pairs.
  lemma AllowedPairs()
    ensures forall from, to :: CanProposalTransition(from, to) <==> (from, to) in PROPOSAL_STEPS
    ensures forall from, to :: CanConflictTransition(from, to) <==> (from, to) in CONFLICT_STEPS
    ensures forall from, to :: CanObservationTransition(from, to) <==> (from, to) in OBSERVATION_STEPS
  {
  }

  // Authors and administrators write and submit; reviewers and administrators review what others wrote.
  lemma WhoMovesProposals(author: nat, to: ProposalState, actor: nat, role: Role)
    ensures MayMoveProposal(author, to, actor, role) <==>
              || (to in AUTHORING && (actor == author || role == Admin))
              || (to in REVIEWING && (role == Reviewer || role == Admin) && actor != author)
  {
  }

  // Position in the five-step review cycle.
  function CycleStep(s: ProposalState): nat {
    match s
    case Draft => 0
    case Validated => 1
    case Submitted => 2
    case Reviewed => 3
    case _ => 4
  }

  // Every allowed transition is the next step of the cycle.
  lemma TransitionIsNextStage(from: ProposalState, to: ProposalState)
    requires CanProposalTransition(from, to)
    ensures CycleStep(to) == (CycleStep(from) + 1) % 5
    ensures ValidProposalState(to) && (IsReviewTransition(to) <==> CycleStep(to) >= 3)
  {
  }

  function Rank(s: ConflictState): nat {
    match s
    case Detected => 0
    case Confirmed => 1
    case FalsePositive => 1
    case ResolutionProposed => 2
    case Resolved => 3
    case Closed => 4
    case _ => 5
  }

  ghost predicate ConflictPath(path: seq<ConflictState>) {
    path != [] && forall i :: 0 < i < |path| ==> CanConflictTransition(path[i - 1], path[i])
  }

  // The conflict graph has no cycle, so a conflict's state alone tells whether it has moved.
  lemma {:induction false} ConflictStatesNeverRecur(path: seq<ConflictState>)
    requires ConflictPath(path)
    ensures Rank(path[|path| - 1]) >= Rank(path[0]) + |path| - 1
    ensures |path| > 1 ==> path[0] != path[|path| - 1]
  {
    if |path| > 1 {
      var front := path[..|path| - 1];
      ConflictStatesNeverRecur(front);
      assert CanConflictTransition(path[|path| - 2], path[|path| - 1]);
      assert front[|front| - 1] == path[|path| - 2];
    }
  }

  ghost predicate ProposalPath(path: seq<ProposalState>) {
    path != [] && forall i :: 0 < i < |path| ==> CanProposalTransition(path[i - 1], path[i])
  }

  // The proposal graph has a cycle: a state comes back after five transitions or a multiple of five.
  lemma {:induction false} ProposalStatesRecurByFives(path: seq<ProposalState>)
    requires ProposalPath(path)
    ensures CycleStep(path[|path| - 1]) == (CycleStep(path[0]) + |path| - 1) % 5
    ensures path[0] == path[|path| - 1] ==> (|path| - 1) % 5 == 0
  {
    if |path| > 1 {
      var front := path[..|path| - 1];
      ProposalStatesRecurByFives(front);
      assert front[|front| - 1] == path[|path| - 2];
      assert CanProposalTransition(path[|path| - 2], path[|path| - 1]);
      TransitionIsNextStage(path[|path| - 2], path[|path| - 1]);
    }
  }

  lemma ProposalStatesRecur()
    ensures exists path :: ProposalPath(path) && |path| == 6 && path[0] == path[5] == Draft
  {
    var path := [Draft, Validated, Submitted, Reviewed, Revision, Draft];
    assert ProposalPath(path);
  }
}
