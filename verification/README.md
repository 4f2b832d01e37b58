# ParcelGraph review store and boundary geometry in Dafny

A model of the cadastral boundary review backend: parcels, survey observations,
boundary proposals and topology conflicts, changed by concurrent requests over one
transactional store, together with the snapping and topology analysis behind conflict
detection, the request limiter, and the ID lists and hash inputs that pass between them.

## How the model is laid out

- `Basics`, `Text`, `Framing`, `Sorting`, `ParcelIds`: text, hash inputs, sorting and ID lists.
- `Plane`, `Polygons`, `Snapping`, `SnapArea`, `Topology`: the geometry package over exact reals.
  The overlay library is a record of arbitrary deterministic functions. `SnapResults` and
  `TopologyReports` say what its results mean, in coordinates, overlays and distances.
- `RateLimiting`: the fixed-window limiter as a class, and runs of calls over its model.
- `Lifecycles`, `Records`, `Analysis`: states and transitions, tables, requests and replies, one detection run.
- `Transactions`: the write transactions, all or nothing. `Protocol`: each request as a
  small program of look-ups and one commit; `Serve` runs it alone, and `After` reaches the
  state of any sequence of arrivals and single stages of any number of clients.
- `Trails`, `Growth`, `Invariants`, `Preservation`, `DetectionWrites`, `Interleaving`: the
  audit log as history, what only grows, and the invariant of every reachable state.
- `Refinement`, `Serializability`, `Effects`, `Idempotency`, `ExactlyOnce`, `LostDetections`,
  `DetectionInputs`, `StoredRuns`, `ConflictEvidence`, `Tolerances`, `Chains`, `Supersession`,
  `ConflictHistory`, `ProposalHistory`, `Reviews`, `Signatures`, `ProposalMoves`, `ParcelHistory`:
  the theorems about runs. `Verdicts`, `AtomicRequests`: which requests are refused, with which
  error, and what the others have done.
- `Calls`, `Races`, `SuggestionRaces`, `Samples`, `Witnesses`: requests one after another and
  two at a time, and concrete runs in which the races happen.
- `Repositories`, `Services`, `Detection`: the store and the service methods as classes
  that change it in place, each proved to leave and answer what `Serve` says. The one
  service struct of the source is two classes here, with detection in its own.

## Where the code does less than it says

- A stale parcel update, and an application of a suggestion whose conflict has moved on
  meanwhile, are answered as internal errors (500), although the documentation promises
  409 for stale states and versions (`ParcelHistory.StaleUpdatesFail`,
  `Reviews.ApplicationsAreDecidedByTheState`, `SuggestionRaces`).
- The replacement of an observation is checked outside the transaction, so two requests
  can supersede each other's observation (`Supersession.RequestsCanSupersedeEachOther`).
- A parcel update that names a version its request has not read can overwrite another
  writer's fields and log a wrong before-image (`ParcelHistory.UpdatesMergeExactly`,
  `ParcelHistory.AnExplicitVersionCanLoseAnUpdate`).
- A proposal transition ignores the version in its request
  (`ProposalMoves.RequestedVersionIsIgnored`) and answers with the rationale it replaced
  (`Reviews.RepliesShowTheStoredRow`).
- A detection can commit what it would no longer record, because the parcel and the
  neighbours are read before the transaction (`DetectionInputs.WinningDetectionIsAtomic`,
  `Witnesses.ADetectionIsOvertaken`).
- Of several gaps the report shows one, that of the lowest-numbered neighbour, because all
  gaps of a candidate share their evidence (`TopologyReports.OneGapIsReported`,
  `TopologyReports.AGapIsOvershadowed`).
- An idempotency key is limited to 128 bytes, although the documentation promises 128
  characters (`Verdicts.DetectionJudged`, `Text.Utf8Bounds`, `Witnesses.AShortKeyIsRefused`).
- Snapping is not idempotent (`Snapping.SnapAgain`, `Snapping.SnappingTwiceCanMoveOn`).

## Model

| member | source | states |
|---|---|---|
| Refinement.EveryCommitIsAtomic | backend/internal/service/boundary_proposal_service.go:78-106 | In every interleaving, a request other than a detection that commits has exactly the effect and reply of running in one piece at that moment, if and only if the rows it relied on without a guard (replacement, base version, source version, read parcel) are still current |
| DetectionInputs.WinningDetectionIsAtomic | backend/internal/service/topology_conflict_service.go:20-135 | A detection that commits is one atomic request at that moment, if and only if the parcel's boundary and CRS and the neighbours' IDs and boundaries are still the texts it read (the proposal's boundary cannot change), given a collision-free digest and NUL-free texts |
| DetectionInputs.PendingRunsWereRead | backend/internal/service/topology_conflict_service.go:43-83 | Every detection about to commit has read its parcel, and then its neighbours, from states the store was in, and asks to record their analysis |
| Witnesses.ADetectionIsOvertaken | backend/internal/service/topology_conflict_service.go:58-127 | A concrete run in which a neighbour is redrawn between the look-up and the commit, so that the detection commits what it would no longer record |
| Serializability.RunsAreSerializable | backend/internal/repository/support_repository.go:66-68 | If every commit of a run relied on current rows, the run leaves the store exactly as its committed requests leave it when served one after another in commit order |
| Verdicts.RequestsAreJudged | backend/internal/service/boundary_proposal_service.go:78-108 | In every reachable state a request of any kind, served alone, is refused exactly by a decision table over the rows, the request and the actor, with that error and an unchanged store |
| Verdicts.RegistrationJudged | backend/internal/service/land_parcel_service.go:22-54 | Creating a parcel or importing an observation is refused exactly for the geometry, a missing parcel, a code or ID in use, or a blank request ID, with the error of each |
| Verdicts.PatchJudged | backend/internal/service/land_parcel_service.go:76-124 | A parcel update is refused exactly when the parcel is missing, the patched CRS or boundary is not accepted, the named version is stale or the request ID is blank |
| Verdicts.NewProposalJudged | backend/internal/service/boundary_proposal_service.go:16-55 | A new proposal is refused exactly when the parcel is missing, its version differs, the boundary does not parse, some evidence is not the parcel's, or it cannot be stored |
| Verdicts.ObservationMoveJudged | backend/internal/service/survey_observation_service.go:64-117 | An observation transition is refused exactly for a missing row, a stale version, a pair of states that is not listed, the role, or a replacement that is missing, itself, foreign or superseded, with the error of each |
| Verdicts.MovesJudged | backend/internal/service/topology_conflict_service.go:157-184 | A conflict transition is refused exactly when the row is missing, the pair of states is not listed or the request ID is blank; a proposal transition also for the actor |
| Verdicts.ApplyJudged | backend/internal/service/topology_conflict_service.go:186-249 | An application is refused exactly for the role, a missing conflict, a state other than resolution_proposed, an unusable suggestion, or a draft that cannot be stored |
| Verdicts.DetectionJudged | backend/internal/service/topology_conflict_service.go:20-134 | A detection is refused exactly for its key, a missing proposal, a key used for another request hash, texts that do not parse, a refused snap, a failed comparison, or a run that cannot be stored |
| AtomicRequests.RequestsAreServed | backend/internal/service/boundary_proposal_service.go:78-115 | Served alone, a request is refused by that table, or has done what it asked and nothing else, or is a detection answered from the stored run of its key |
| AtomicRequests.AppliedDraftIsNext | backend/internal/service/topology_conflict_service.go:224-232 | Served alone, an accepted application derives a draft with the source's version plus one, on the parcel's current version |
| Calls.CallsAreRuns | backend/internal/repository/support_repository.go:66-68 | Requests served one after another are among the runs of the system |
| ExactlyOnce.RunsSeeTextsOnly | backend/internal/service/topology_conflict_service.go:50-104 | What a detection records depends on the proposal's ID and boundary, the parcel's ID, boundary and CRS, and the neighbours' IDs and boundaries only |
| Invariants.GuardSeesTheCopy | backend/internal/repository/topology_conflict_repository.go:78-91 | A compare-and-set that succeeds changes the very row the client read: by version for proposals and observations, by the rank of the state alone for conflicts |
| Reviews.TransitionsAreLegal | backend/internal/service/boundary_proposal_service.go:86-92 | Whenever a transition commits, legality, role, authorship and the missing replacement hold of the real row, not only of the copy that was checked |
| Effects.CommitsDoAsAsked | backend/internal/service/boundary_proposal_service.go:78-115 | Whatever the interleaving, each of the nine requests that commits has done to its row what it asked, with authority and legality checked against that row, and has changed no other row of any table |
| Effects.CodesStayUnique | backend/internal/service/land_parcel_service.go:39-49 | In every reachable state no two parcels and no two observations share a code |
| Effects.NeighboursAreTheOthers | backend/internal/repository/land_parcel_repository.go:65-72 | The neighbours of a detection are exactly the other active parcels of the coordinate system, by ascending ID |
| StoredRuns.StoredRunsTellTheirFindings | backend/internal/service/topology_conflict_service.go:43-127 | In every reachable state each stored run carries the input hash of a parcel and neighbours the store held, and the conflicts it lists tell the findings of those rows, one for each finding, in order, with evidence, participants and the snapped boundary as suggestion |
| StoredRuns.EqualInputsEqualFindings | backend/internal/service/topology_conflict_service.go:62-104 | With a collision-free digest, two stored runs with equal input hashes list as many conflicts with the same findings in the same order, and the same participants when they concern the same parcel |
| ConflictEvidence.StoredConflictsAreReal | backend/internal/service/topology_conflict_service.go:43-127 | In every reachable state each stored run compared the boundary its conflicts suggest with neighbours the store held: every listed conflict names a neighbour that overlaps, recedes or hardly touches as stated, and whatever a neighbour gives rise to is listed |
| Tolerances.CommitsAtTheNamedTolerance | backend/internal/service/topology_conflict_service.go:32-36 | A detection that commits hashes and analyses with the tolerance its request names, or with the proposal's when it names none |
| Tolerances.SuccessesAreAtTheNamedTolerance | backend/internal/service/topology_conflict_service.go:32-41 | With a collision-free digest every success, recorded or replayed, reports a run analysed at the tolerance its own request names |
| Tolerances.OneToleranceForAKey | backend/internal/service/topology_conflict_service.go:252-254 | With a collision-free digest two successes with one actor and key are for one proposal and name no two tolerances |
| Interleaving.AlwaysOk | backend/internal/service/boundary_proposal_service.go:78-115 | Every reachable state of every interleaving keeps the whole store invariant and the facts each pending request relies on |
| Interleaving.EventIsOk | backend/internal/service/boundary_proposal_service.go:78-115 | One arrival or one stage of any client keeps that invariant and only moves the store forward |
| Interleaving.RunsGoForward | backend/internal/repository/boundary_proposal_repository.go:53-64 | Rows are never deleted and their fixed columns never change; a changed parcel, proposal or observation has a higher version, a changed conflict a higher rank; runs never change and the audit log only grows |
| DetectionWrites.TransactionKeeps | backend/internal/repository/support_repository.go:66-68 | Each of the nine write transactions keeps the store invariant |
| ExactlyOnce.SuccessesAgree | backend/internal/service/topology_conflict_service.go:37-41 | All successes for one actor and trimmed key list the same conflict IDs in the same order, for the same request hash |
| ExactlyOnce.ConflictsBelongToOneRun | backend/internal/model/topology_conflict.go:29-38 | Every stored conflict belongs to exactly one run, with its proposal and input hash, and one actor and key have one run |
| LostDetections.LosersAreAnsweredByTheWinner | backend/internal/service/topology_conflict_service.go:128-133 | In any interleaving of its remaining look-ups, a detection whose key was taken before it committed never ends with an internal error: when answered, it reports the winner's run, or a key reuse if that run has another request hash |
| LostDetections.SecondLookUpFindsTheWinner | backend/internal/service/topology_conflict_service.go:129-131 | Once the key is taken, the look-up after a failed commit replays a run or refuses the reuse of the key |
| LostDetections.LosersWriteNothing | backend/internal/service/topology_conflict_service.go:105-133 | From then on none of its steps writes a conflict, a run or an audit entry |
| ExactlyOnce.LosersReportTheWinner | backend/internal/service/topology_conflict_service.go:128-133 | Run to its end with nobody in between, such a detection does end, leaves the store untouched and reports the winner's run or a key reuse |
| ExactlyOnce.AskingAgainReports | backend/internal/service/topology_conflict_service.go:37-41 | A detection asked again with a used key changes nothing and reports the stored run, or is refused for another request hash |
| ExactlyOnce.ReplayNeverMisses | backend/internal/service/topology_conflict_service.go:252-265 | A replay finds every conflict of its run, in the run's order |
| ExactlyOnce.RefusedOnlyForAnotherRequest | backend/internal/service/topology_conflict_service.go:252-255 | A key-reuse refusal happens only if a request for another proposal or tolerance succeeded with that key |
| ExactlyOnce.RepeatsAreNotRefused | backend/internal/service/topology_conflict_service.go:32-41 | Repeating a request that succeeded is never refused as a key reuse, whatever happened in between and also when the tolerance is omitted |
| Idempotency.DetectionsAlwaysOk | backend/internal/service/topology_conflict_service.go:20-135 | Every pending or finished detection carries the hash, key and run its request asks for |
| Idempotency.RunOfFinds | backend/internal/repository/topology_conflict_repository.go:96-105 | The look-up by actor and key finds a run exactly when there is one |
| Idempotency.ListedConflicts | backend/internal/repository/topology_conflict_repository.go:33-54 | Listing by IDs succeeds exactly when all exist, and returns them in the order asked |
| Analysis.InputPreimageDeterminesFindings | backend/internal/service/topology_conflict_service.go:62-83 | Equal bytes fed to the input hash mean equal boundaries, CRS, tolerance and ordered neighbours, hence the same findings |
| Analysis.InputHashDeterminesFindings | backend/internal/service/topology_conflict_service.go:62-83 | With a collision-free digest, a decoder of NUL-free texts and NUL-free CRS codes, two successful analyses with equal input hashes had the same inputs and findings |
| Analysis.RequestHashNamesTheRequest | backend/internal/service/topology_conflict_service.go:36-36 | With a collision-free digest, two request hashes agree exactly when proposal and six-decimal tolerance agree |
| Lifecycles.ProposalStatesRecurByFives | backend/internal/constants/proposal_state.go:16-23 | Along any path of allowed transitions a proposal state comes back only after a multiple of five steps, and the path length gives the stage of the cycle |
| Lifecycles.ProposalStatesRecur | backend/internal/constants/proposal_state.go:16-23 | The proposal graph has a cycle, so the state alone does not tell whether a proposal has moved |
| Lifecycles.ConflictStatesNeverRecur | backend/internal/constants/conflict_type.go:22-29 | Along any path of allowed transitions a conflict state never comes back |
| Lifecycles.AllowedPairs | backend/internal/constants/conflict_type.go:22-31 | The allowed transitions of proposals, conflicts and observations are exactly the listed pairs |
| Lifecycles.WhoMovesProposals | backend/internal/service/boundary_proposal_service.go:117-136 | Authors and administrators make the authoring moves; reviewers and administrators make the review moves of proposals they have not written |
| ProposalHistory.ProposalsGoRound | backend/internal/constants/proposal_state.go:16-23 | The log of a proposal goes draft, validated, submitted, reviewed, revision and round again, with an acceptance or a rejection only as its last entry in the place of a revision |
| ProposalHistory.DecisionsAreFinal | backend/internal/constants/proposal_state.go:16-23 | Once accepted or rejected, a proposal never changes again and gets no further entry |
| Reviews.ProposalLogIsComplete | backend/internal/service/boundary_proposal_service.go:78-115 | A proposal's log replays to its row but for the rationale; its version tells its stage modulo five, whether reviewed_by is set, and reviewed_by is never the author |
| Reviews.RationalesAreLoggedUntilChanged | backend/internal/service/boundary_proposal_service.go:93-105 | The log shows a proposal's rationale after its creation, and after a transition exactly when the transition did not change it |
| Reviews.ObservationLogIsComplete | backend/internal/service/survey_observation_service.go:101-117 | An observation's log replays to its row and has as many entries as its version |
| Reviews.ConflictLogIsComplete | backend/internal/service/topology_conflict_service.go:157-184 | A conflict's log replays to its row; it has a resolver exactly when resolved or closed, and at most one applied suggestion, only then |
| Reviews.ChangesAreLogged | backend/internal/repository/support_repository.go:152-160 | Between any two moments of a run a parcel, observation, proposal or conflict has changed exactly when its log has grown |
| ConflictHistory.ConflictsClimb | backend/internal/constants/conflict_type.go:22-29 | Between any two moments of a run a conflict's log is unchanged or its state has climbed its lifecycle |
| ConflictHistory.ConflictsFollowAPath | backend/internal/constants/conflict_type.go:22-29 | In every reachable state the log of a conflict shows the first states of detected, confirmed, resolution_proposed, resolved, closed, or of detected, false_positive, closed, one for each entry, and the row is at the last |
| ConflictHistory.LogLengthTellsState | backend/internal/constants/conflict_type.go:22-29 | A resolved conflict has exactly four entries; the number of entries tells how far a conflict has come |
| Reviews.TransitionsAreLogged | backend/internal/service/topology_conflict_service.go:172-177 | The last entry of a transition names its actor and non-blank request ID and holds the row as it stood |
| Signatures.CommitsAreSigned | backend/internal/service/topology_conflict_service.go:105-127 | Every entry a commit leaves names the actor, the username and the non-blank request ID of its request, and is filed under the rows it belongs to |
| Signatures.EntriesAreSigned | backend/internal/repository/support_repository.go:152-160 | In every reachable state each entry of the log was left by a request that has succeeded, and is filed under existing rows |
| Reviews.RepliesShowTheStoredRow | backend/internal/service/boundary_proposal_service.go:94-113 | A successful write replies with the stored row, exactly except for a proposal transition that changes the rationale |
| StoredRuns.DetectionsShowStoredConflicts | backend/internal/service/topology_conflict_service.go:105-134 | Whenever a detection is answered with conflicts, recorded or replayed, each is the row the store holds |
| ProposalMoves.RequestedVersionIsIgnored | backend/internal/service/boundary_proposal_service.go:78-115 | A transition request has the same effect and reply whatever version it names |
| ProposalMoves.MovesAreRefusedExactly | backend/internal/service/boundary_proposal_service.go:78-108 | A transition request is refused exactly when the proposal is missing, the transition is not in the table, the actor may not make it, or the request ID is blank |
| Witnesses.AStaleVersionCommits | backend/internal/service/boundary_proposal_service.go:100-106 | A concrete transition that names version 99 of a proposal at version 1 commits |
| Witnesses.AnOldRationaleIsAnswered | backend/internal/service/boundary_proposal_service.go:93-114 | A concrete transition that stores a new rationale answers with the old one |
| Witnesses.AShortKeyIsRefused | backend/internal/service/topology_conflict_service.go:21-24 | A key of 65 to 128 two-byte characters is refused as too long |
| Reviews.FailedRequestsWroteNothing | backend/internal/repository/support_repository.go:66-68 | In any interleaving, a request that has been answered with an error has changed nothing by any of its own steps |
| Reviews.ErrorsLeaveNoTrace | backend/internal/repository/support_repository.go:66-68 | A request served alone and answered with an error has changed nothing |
| Reviews.BlankRequestsWriteNothing | backend/internal/repository/support_repository.go:152-155 | A request with a blank request ID changes nothing at any stage |
| Reviews.DerivedDraftsHaveOneConflict | backend/internal/service/topology_conflict_service.go:234-245 | A proposal is a derived draft exactly when the log of one conflict, and only one, records its application |
| Reviews.ApplicationsAreDecidedByTheState | backend/internal/service/topology_conflict_service.go:233-249 | A pending application succeeds exactly when the conflict is still in resolution_proposed, the draft's ID is free and the request ID is not blank; otherwise it is an internal error and changes nothing |
| Reviews.PendingCommitsAreDecided | backend/internal/service/boundary_proposal_service.go:100-108 | In any interleaving a transition commits exactly when its row is still the copy its request read and the request ID is not blank, and otherwise is answered as a state conflict; every other commit but a detection's is decided by codes, IDs and versions, and what fails writes nothing |
| SuggestionRaces.ApplicationLosesToApplication | backend/internal/service/topology_conflict_service.go:186-250 | Of two interleaved applications of one suggestion the later commit is answered as an internal error |
| SuggestionRaces.ApplicationLosesToTransition | backend/internal/service/topology_conflict_service.go:157-250 | An application that a plain transition to resolved overtakes is answered as an internal error, although nobody has applied the suggestion |
| Witnesses.ApplicationsDoLose | backend/internal/service/topology_conflict_service.go:157-250 | Both of these races occur from the empty store with a concrete library |
| Reviews.SecondApplicationFails | backend/internal/service/topology_conflict_service.go:233-249 | Once a suggestion is applied every other pending application fails and leaves no orphan draft |
| Supersession.SequentialChainsEndLive | backend/internal/service/survey_observation_service.go:64-118 | With requests one after another the replacements have no cycle and lead from any replaced observation to a live one of the same parcel |
| Supersession.SupersedingKeepsEnds | backend/internal/service/survey_observation_service.go:82-106 | In any interleaving, superseding x by y keeps all chains ending if and only if the recorded replacements do not lead from y back to x |
| Supersession.RequestsCanSupersedeEachOther | backend/internal/service/survey_observation_service.go:86-95 | Any two usable observations of a parcel can be superseded by each other by two interleaved requests |
| Witnesses.ASupersedingLoopHappens | backend/internal/service/survey_observation_service.go:86-95 | Such a loop occurs from the empty store with a concrete library |
| Supersession.ChainsEndLive | backend/internal/service/survey_observation_service.go:86-95 | Wherever all chains end, each ends at a live observation of the parcel it started on |
| Supersession.LinksAreKept | backend/internal/repository/survey_observation_repository.go:53-69 | A replacement once set is never changed or removed |
| Chains.NewLinkKeepsEnds | backend/internal/service/survey_observation_service.go:82-106 | One more link keeps every chain ending exactly when its target does not already reach its source |
| Chains.EndingIsAcyclic | backend/internal/service/survey_observation_service.go:82-106 | A table of links in which every chain ends has no cycle |
| ParcelHistory.ProposalsAreGrounded | backend/internal/service/boundary_proposal_service.go:24-45 | Every proposal names a version its parcel has had, and its area delta is its own area less the parcel's area at that version |
| ParcelHistory.HistoryIsTrue | backend/internal/service/land_parcel_service.go:114-119 | Whatever a parcel was at any moment of a run, the log still tells at the end under its version |
| ParcelHistory.UpdatesMerge | backend/internal/service/land_parcel_service.go:80-119 | An update that compares the version it read merges its fields into the row as it stands and logs that row |
| ParcelHistory.OmittedVersionIsTheOneRead | backend/internal/service/land_parcel_service.go:84-87 | An update without an explicit version compares the version it read |
| ParcelHistory.UpdatesMergeExactly | backend/internal/service/land_parcel_service.go:84-123 | An update that commits loses nothing exactly when its copy agrees with the row where the patch is silent; its before-image is true, and its after-image one version behind the row, exactly when it compared the version it read |
| ParcelHistory.AnExplicitVersionCanLoseAnUpdate | backend/internal/service/land_parcel_service.go:84-87 | Naming the version after the one read overwrites a concurrent renaming that was confirmed to its client |
| Witnesses.AnUpdateIsLost | backend/internal/service/land_parcel_service.go:84-87 | Such a loss occurs from the empty store with a concrete library |
| ParcelHistory.StaleUpdatesFail | backend/internal/repository/land_parcel_repository.go:74-88 | An update commits exactly when the row has the expected version and the request ID is not blank; otherwise it is an internal error and changes nothing |
| Repositories.Store.constructor | backend/internal/repository/support_repository.go:53-64 | A new store is empty |
| Repositories.Store.Rollback | backend/internal/repository/support_repository.go:66-68 | A failed transaction leaves every table as it was |
| Repositories.Store.CreateParcel | backend/internal/repository/land_parcel_repository.go:16-21 | Stores the row under the given fresh ID, or refuses |
| Repositories.Store.UpdateParcel | backend/internal/repository/land_parcel_repository.go:74-88 | Overwrites the listed columns and bumps the version, if and only if ID and version match |
| Repositories.Store.ListActiveByCoordinateSystem | backend/internal/repository/land_parcel_repository.go:65-72 | The other active parcels of the coordinate system by ascending ID |
| Repositories.Store.CreateObservation | backend/internal/repository/survey_observation_repository.go:16-21 | Stores the row unless its code or ID is taken |
| Repositories.Store.TransitionObservation | backend/internal/repository/survey_observation_repository.go:53-69 | Moves the row if and only if ID and version match; keeps replacement and note when none is given |
| Repositories.Store.CreateProposal | backend/internal/repository/boundary_proposal_repository.go:16-21 | Stores the row under the given fresh ID, or refuses |
| Repositories.Store.TransitionProposal | backend/internal/repository/boundary_proposal_repository.go:53-64 | Moves the row and bumps the version if and only if ID, version and state match |
| Repositories.Store.CreateConflict | backend/internal/repository/topology_conflict_repository.go:15-20 | Stores the row under the given fresh ID, or refuses |
| Repositories.Store.TransitionConflict | backend/internal/repository/topology_conflict_repository.go:78-91 | Moves the row if and only if ID and state match |
| Repositories.Store.ListConflictsByIDs | backend/internal/repository/topology_conflict_repository.go:33-54 | The listed conflicts in list order, or nothing if one is missing |
| Repositories.Store.FindRunByActorKey | backend/internal/repository/topology_conflict_repository.go:96-105 | The run of an actor and key, if any |
| Repositories.Store.CreateRun | backend/internal/repository/topology_conflict_repository.go:107-112 | Stores the run unless the actor and key already have one |
| Repositories.Store.CreateAudit | backend/internal/repository/support_repository.go:152-160 | Appends the entry if and only if its request ID is not blank |
| Services.CadastralService.CreateParcel | backend/internal/service/land_parcel_service.go:22-54 | Store and reply after the method are those of the atomic request |
| Services.CadastralService.UpdateParcel | backend/internal/service/land_parcel_service.go:76-124 | Store and reply after the method are those of the atomic request |
| Services.CadastralService.PatchParcel | backend/internal/service/land_parcel_service.go:88-111 | The row copy with the accepted fields of the patch, or a refusal |
| Services.CadastralService.CommitParcelUpdate | backend/internal/service/land_parcel_service.go:112-123 | The transaction of an update, committed or rolled back as a whole |
| Services.CadastralService.ImportObservation | backend/internal/service/survey_observation_service.go:14-42 | Store and reply after the method are those of the atomic request |
| Services.CadastralService.TransitionObservation | backend/internal/service/survey_observation_service.go:64-98 | Store and reply after the method are those of the atomic request |
| Services.CadastralService.CommitObservationMove | backend/internal/service/survey_observation_service.go:100-117 | The transaction of an observation transition and the item it answers |
| Services.CadastralService.CreateProposal | backend/internal/service/boundary_proposal_service.go:16-45 | Store and reply after the method are those of the atomic request |
| Services.CadastralService.EvidenceBelongs | backend/internal/service/boundary_proposal_service.go:31-36 | The evidence loop ends where checking one observation after another ends |
| Services.CadastralService.CommitNewProposal | backend/internal/service/boundary_proposal_service.go:46-55 | The transaction of a new proposal |
| Services.CadastralService.TransitionProposal | backend/internal/service/boundary_proposal_service.go:78-92 | Store and reply after the method are those of the atomic request |
| Services.CadastralService.AuthorizeProposalTransition | backend/internal/service/boundary_proposal_service.go:117-136 | Refuses exactly those who may not make the transition, and an unknown target state as a state conflict |
| Services.CadastralService.CommitProposalMove | backend/internal/service/boundary_proposal_service.go:93-114 | The transaction of a proposal transition and the item it answers |
| Services.CadastralService.TransitionConflict | backend/internal/service/topology_conflict_service.go:157-167 | Store and reply after the method are those of the atomic request |
| Services.CadastralService.CommitConflictMove | backend/internal/service/topology_conflict_service.go:168-183 | The transaction of a conflict transition and the item it answers |
| Services.CadastralService.ApplyConflictSuggestion | backend/internal/service/topology_conflict_service.go:186-223 | Store and reply after the method are those of the atomic request |
| Services.CadastralService.DeriveProposal | backend/internal/service/topology_conflict_service.go:224-232 | The draft derived from a suggestion |
| Services.CadastralService.CommitSuggestion | backend/internal/service/topology_conflict_service.go:233-249 | The transaction that applies a suggestion, committed or rolled back as a whole |
| Services.CadastralService.WriteSuggestion | backend/internal/service/topology_conflict_service.go:235-244 | The writes of that transaction succeed together exactly when all guards hold |
| Detection.DetectionService.DetectConflicts | backend/internal/service/topology_conflict_service.go:20-42 | Store and reply after the method are those of the atomic request |
| Detection.DetectionService.RunDetection | backend/internal/service/topology_conflict_service.go:43-104 | From the parcel look-up on, store and reply are those of the request that found its key free |
| Detection.DetectionService.CommitDetection | backend/internal/service/topology_conflict_service.go:105-134 | On any store, whatever other requests did to it: records the run, or replays the run that took the key |
| Detection.DetectionService.ReplayDetectionRun | backend/internal/service/topology_conflict_service.go:252-265 | Answers with the run's conflicts, or refuses another request hash |
| Detection.DetectionService.Analyse | backend/internal/service/topology_conflict_service.go:50-82 | Parsing, sorting, snapping and detecting in the code's order give the outcome and the errors of the specification |
| Detection.DetectionService.ParseNeighbours | backend/internal/service/topology_conflict_service.go:62-73 | Parses all neighbours, or stops at the first stored geometry that is invalid |
| Detection.DetectionService.HashInput | backend/internal/service/topology_conflict_service.go:64-83 | The hash of the header and of every neighbour's ID and boundary, in order |
| Detection.DetectionService.BuildConflicts | backend/internal/service/topology_conflict_service.go:91-104 | One conflict for each finding, in order, with its participants |
| Detection.DetectionService.RecordDetection | backend/internal/service/topology_conflict_service.go:105-127 | Conflicts, run and audit entries succeed together exactly when no guard refuses |
| Detection.DetectionService.InsertItems | backend/internal/service/topology_conflict_service.go:106-113 | Inserts and logs each conflict in order until one is refused |
| Plane.ProjectionIsNearest | backend/internal/geometry/geometry.go:238-247 | The clamped projection is at least as near as every point of the segment |
| Plane.InteriorProjection | backend/internal/geometry/geometry.go:238-247 | A projection that is neither end lies strictly inside the segment |
| Plane.SignedArea | backend/internal/geometry/geometry.go:135-141 | The shoelace loop computes half the sum of the cross products |
| Plane.RectangleArea | backend/internal/geometry/geometry.go:135-141 | A rectangle walked counter-clockwise has the signed area width times height |
| Plane.BackwardsNegatesArea | backend/internal/geometry/geometry.go:135-141 | Walked the other way round a ring has the opposite signed area |
| Polygons.ParsePolygon | backend/internal/geometry/geometry.go:48-97 | Accepts exactly the decoded polygons whose rings are closed, long enough and wound as required, with a positive area |
| Polygons.ParsedExactly | backend/internal/geometry/geometry.go:48-97 | Accepted are exactly the decoded polygons of positive area with closed rings of four points or more, the first wound counter-clockwise and the others clockwise |
| Snapping.NearestSnapTarget | backend/internal/geometry/geometry.go:213-236 | The two loops find the specified target |
| Snapping.NearestIsEarliestMinimum | backend/internal/geometry/geometry.go:213-222 | The choice is the earliest nearest candidate within tolerance, and there is none exactly when no candidate is within tolerance |
| Snapping.VertexTargetIsRight | backend/internal/geometry/geometry.go:213-222 | A vertex snap goes to the earliest-listed nearest reference vertex, within tolerance |
| Snapping.EdgeTargetIsRight | backend/internal/geometry/geometry.go:223-231 | An edge snap is at least as near as every point of every segment, happens only with no vertex within tolerance, and lands strictly inside its segment |
| Snapping.UnmovedIsRight | backend/internal/geometry/geometry.go:232-235 | An unmoved point already lies on its target or is farther than the tolerance from every reference point |
| Snapping.ReferenceEdgeSnapIsInterior | backend/internal/geometry/geometry.go:177-188 | With the vertices and segments SnapToReferences collects, an edge snap always lands strictly inside a segment |
| Snapping.ReferenceEndsListed | backend/internal/geometry/geometry.go:177-188 | Every end of a collected segment is a collected vertex |
| Snapping.MovedWithinTolerance | backend/internal/geometry/geometry.go:190-198 | Each coordinate moves by at most the tolerance |
| Snapping.SnapAgain | backend/internal/geometry/geometry.go:213-236 | Snapping a snapped coordinate again moves it exactly when it was an edge snap that landed within tolerance of a vertex |
| Snapping.SnappingTwiceCanMoveOn | backend/internal/geometry/geometry.go:213-236 | A concrete coordinate that moves on when snapped twice |
| Snapping.CollectReferences | backend/internal/geometry/geometry.go:177-188 | Vertices and segments of all rings in listing order |
| Snapping.CollectRing | backend/internal/geometry/geometry.go:181-186 | The points of a ring and the segment ending at each but the first |
| Snapping.SnapToReferences | backend/internal/geometry/geometry.go:172-211 | The snapped polygon, its text and its change list, or the refusal, as specified |
| SnapResults.SnappingIsRight | backend/internal/geometry/geometry.go:172-211 | With a positive tolerance the result belongs to a shape in which every coordinate of the candidate is on a nearest reference vertex within tolerance, else on a nearest edge point within tolerance, else unmoved: its text, the polygon that text parses to, and exactly the moves in order; it is refused exactly when that shape is invalid, cannot be encoded or does not parse |
| SnapResults.SnappedPolygonIsRight | backend/internal/geometry/geometry.go:199-210 | When texts read back, the polygon returned is that shape, point by point, and the list shows exactly the points that differ from the candidate |
| SnapResults.NoToleranceNoSnap | backend/internal/geometry/geometry.go:173-176 | Without a tolerance the candidate is returned with its own text and no changes |
| SnapResults.ReferencesListed | backend/internal/geometry/geometry.go:177-188 | The collected vertices and segments are exactly the points and edges of the reference rings |
| SnapResults.ListedInOrder | backend/internal/geometry/geometry.go:177-188 | They are listed polygon after polygon, ring after ring, point after point, so ties go to what comes first |
| Snapping.TransformXY | backend/internal/geometry/geometry.go:190-198 | The sequential map over all rings, with its change list |
| Snapping.TransformRing | backend/internal/geometry/geometry.go:190-198 | The sequential map over one ring, with its change list |
| Snapping.ChangesAreTheMoves | backend/internal/geometry/geometry.go:189-198 | The change list has an entry at the position of each moved coordinate, in order |
| Snapping.CountsAgree | backend/internal/geometry/geometry.go:189-198 | The change list has as many entries as coordinates moved |
| Snapping.MovedRingStaysClosed | backend/internal/geometry/geometry.go:190-198 | A closed ring stays closed and keeps its length |
| SnapArea.ClosedRingAreaChange | backend/internal/geometry/geometry.go:135-141 | Moving the vertices of a closed ring by at most the tolerance changes the signed area by at most tolerance times the L1 perimeter plus half of edges times tolerance squared |
| SnapArea.SnappedRingsAreAccepted | backend/internal/geometry/geometry.go:76-82 | Rings whose signed areas exceed that bound keep their winding and pass the ring checks after snapping |
| SnapArea.SnappingIsNotRefused | backend/internal/geometry/geometry.go:199-210 | Such a candidate is snapped without refusal, given valid topology, positive area and a faithful encoding |
| Topology.DetectTopology | backend/internal/geometry/geometry.go:269-309 | Sorts the caller's array in place and returns the specified findings or the first error |
| Topology.DetectAgainst | backend/internal/geometry/geometry.go:273-306 | The findings against one neighbour, in order, or the error |
| Topology.DeduplicateFindings | backend/internal/geometry/geometry.go:315-327 | Keeps the first finding of each key |
| TopologyReports.ReportIsExact | backend/internal/geometry/geometry.go:269-327 | The report fails exactly when an overlay or a needed encoding fails; otherwise it lists exactly the findings some neighbour gives, in terms of overlay area, distances and shared length, and no lower neighbour gives with the same kind and evidence |
| TopologyReports.FindingsHaveTheirCause | backend/internal/geometry/geometry.go:273-306 | Every reported finding names a neighbour that meets its condition, with that evidence and magnitude |
| TopologyReports.OverlapsAreReported | backend/internal/geometry/geometry.go:274-284 | An overlay area above the threshold is reported as an overlap with that overlay as evidence and, when texts tell shapes apart, its area |
| TopologyReports.HardlyTouchingIsReported | backend/internal/geometry/geometry.go:296-305 | A neighbour within tolerance that shares no more boundary than the tolerance is reported as a dangling edge with what it falls short of |
| TopologyReports.OneGapIsReported | backend/internal/geometry/geometry.go:287-294 | The report holds one gap, of the lowest neighbour the candidate recedes from; another neighbour's distance is reported exactly when it is the same |
| TopologyReports.AGapIsOvershadowed | backend/internal/geometry/geometry.go:315-327 | A concrete report that shows a gap of one metre and not another neighbour's gap of two |
| TopologyReports.ReportIsOrdered | backend/internal/geometry/geometry.go:269-307 | The report is ordered by neighbour ID, and for one neighbour lists the overlap, then the gap, then the dangling edge |
| Topology.DedupKeyIsInjective | backend/internal/geometry/geometry.go:319-319 | The text key tells kind and evidence apart |
| Topology.NeighbourOrderIsIrrelevant | backend/internal/geometry/geometry.go:269-272 | Every permutation of neighbours with distinct IDs gives the same findings |
| Topology.DeduplicatedKeepsFirsts | backend/internal/geometry/geometry.go:315-327 | The report keeps exactly the first finding of each key, in order |
| Topology.FindingsComeFromNeighbours | backend/internal/geometry/geometry.go:272-307 | A finding is listed exactly when some neighbour yields it |
| Topology.RepresentedByLowestNeighbour | backend/internal/geometry/geometry.go:269-327 | Each finding of a neighbour is represented by one of the same kind and evidence naming no higher neighbour |
| Topology.ReportHasNoDuplicates | backend/internal/geometry/geometry.go:287-327 | No two findings share kind and evidence, and at most one gap survives |
| Topology.GapOrDanglingNotBoth | backend/internal/geometry/geometry.go:287-305 | No neighbour yields both a gap and a dangling edge |
| RateLimiting.RateLimiter.constructor | backend/internal/middleware/auth.go:46-48 | A new limiter has no visitors and has just swept |
| RateLimiting.RateLimiter.Sweep | backend/internal/middleware/auth.go:53-60 | Deletes exactly the expired entries when the window has passed |
| RateLimiting.RateLimiter.Allow | backend/internal/middleware/auth.go:50-71 | State, decision and retry duration of a call are those of the model, the real clock being an argument |
| RateLimiting.RetryTellsWhen | backend/internal/middleware/auth.go:61-67 | A refused caller's next call is allowed exactly once the instant its retry duration counts down to has passed |
| RateLimiting.SweepingIsInvisible | backend/internal/middleware/auth.go:53-60 | Over every run with non-decreasing times the decisions equal those of a limiter that never deletes |
| RateLimiting.RetainedEntriesAreRecent | backend/internal/middleware/auth.go:53-60 | After every call each retained entry was opened no more than two windows ago |
| RateLimiting.WindowQuota | backend/internal/middleware/auth.go:61-70 | At most the limit is allowed within one opened window |
| RateLimiting.SlidingWindowBound | backend/internal/middleware/auth.go:61-70 | Any closed interval as long as the window holds at most 2 * limit - 1 allowed calls, none for a limit of zero or less |
| RateLimiting.SlidingWindowBoundIsTight | backend/internal/middleware/auth.go:61-70 | For every positive limit and window a run attains 2 * limit - 1 |
| Framing.Hash | backend/internal/geometry/geometry.go:118-125 | Digests every part followed by one NUL |
| Framing.FrameInjective | backend/internal/geometry/geometry.go:118-125 | Lists of NUL-free parts of any length are told apart by the bytes digested |
| Framing.FramingNeedsNulFreeParts | backend/internal/geometry/geometry.go:118-125 | Parts that contain a NUL can collide |
| Text.DecimalInjective | backend/internal/service/topology_conflict_service.go:36-36 | Decimal IDs are told apart by their texts |
| Text.SixDecimalsInjective | backend/internal/service/topology_conflict_service.go:36-36 | Tolerances in micrometres are told apart by their six-decimal texts |
| Text.TrimSpaceIdempotent | backend/internal/service/topology_conflict_service.go:21-21 | A trimmed key is a fixed point of trimming |
| Text.TrimSpaceDropsTheEnds | backend/internal/service/topology_conflict_service.go:21-21 | Trimming drops the longest runs of white space at both ends and no more |
| Text.Utf8Bounds | backend/internal/service/topology_conflict_service.go:22-22 | A text is as long in bytes as in characters exactly when it is ASCII, and at most four times as long |
| Sorting.Sort | backend/internal/service/topology_conflict_service.go:291-291 | Sorts the array in place as specified |
| Sorting.SortedByProperties | backend/internal/service/topology_conflict_service.go:291-291 | The result is ordered and a permutation |
| Sorting.SortForgetsOrder | backend/internal/service/topology_conflict_service.go:74-74 | With distinct keys the result does not depend on the order of the input |
| ParcelIds.UniqueSortedIDs | backend/internal/service/topology_conflict_service.go:290-299 | Compacting inside the array it reads yields the members in strictly increasing order |
| ParcelIds.Compact | backend/internal/service/topology_conflict_service.go:292-297 | The compaction loop over its own input |
| ParcelIds.CompactedProperties | backend/internal/service/topology_conflict_service.go:292-297 | Compacting a sorted list keeps exactly its members, strictly increasing |
| ParcelIds.NormalizeParcelIDs | frontend/src/types/topology-conflict.ts:26-48 | The answer lists exactly the positive safe integers the array, or the JSON text of one, names, in order of first mention; the server's list comes back unchanged both ways; unreadable text and null give none |
| ParcelIds.NormalizedMembers | frontend/src/types/topology-conflict.ts:40-47 | Without repetition, exactly the candidates that name a positive safe integer |
| ParcelIds.FirstsAreKept | frontend/src/types/topology-conflict.ts:39-47 | Exactly the positive safe integers named, each once, in the order in which they are first named |
| ParcelIds.SafeListSurvives | frontend/src/types/topology-conflict.ts:26-48 | A list of distinct positive safe integers is returned unchanged |
| ParcelIds.ServerListReachesThePage | frontend/src/types/topology-conflict.ts:26-48 | The server's list reaches the page unchanged if and only if all its IDs are positive safe integers |

## Left out

- Refinement.EveryCommitIsAtomic: covers the eight requests other than detection; detection has its own theorem, DetectionInputs.WinningDetectionIsAtomic, because what it relies on is a whole list of rows.
- SnapArea.SnappingIsNotRefused: goes one way, because a ring inside the area bound may or may not turn over, depending on where its vertices snap.
- RateLimiting.RateLimiter.Allow: leaves out the saturation of very long durations; the real clock that the retry duration is counted from is an argument.
- Sorting.Sort: is an insertion sort that keeps equal keys in order; sort.Slice leaves their order open, and the lists sorted here have distinct keys or indistinguishable members.
- Repositories.Store.Rollback: stands for the database's own rollback; a transaction is a saved state and its restoration, and isolation is the atomic commit stage of Protocol.
- Repositories.Store.CreateConflict: takes the ID the database would assign as an argument, as do the other inserts; an ID already in use is a refused insert.
- Floating point: coordinates and areas are exact reals, distances are compared by their squares, and a tolerance is a whole number of micrometres, so the rounding of the six-decimal format does not arise. Negative tolerances are excluded by the request validator.
- The overlay library, GeoJSON coding, SHA-256, upper-casing, the CRS allow-list and point parsing are arbitrary functions; where a collision-free digest is needed it is an explicit hypothesis.
- Timestamps, severities, explanation texts, the polygon's bounding box, JSON encoding and the scrubbing of snapshots; audit images are the rows themselves.
- Texts are sequences of characters; the bytes of a hash part are its characters.
- States arrive decoded: trimming the requested observation state and parsing state names are not modelled, an unknown text is an unknown state.
- Request validation (lengths, ranges, allowed values) beyond what the services themselves check.
- Database failures other than a refused insert, a failed compare-and-set or a missing row.
- Listing, filtering and paging, single-row reads, HTTP handlers, routes and their role lists, authentication, CORS, configuration, seeding and migrations, and the pages of the front end.
