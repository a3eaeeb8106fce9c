# Konoha supervised missions: a verified model

Konoha runs missions under human supervision. A mission has a charter and a decision that a
human approves once; a write-once receipt then freezes their digests. Work happens through a
queue of actions. Each action is approved by its own phrase, published as a write-once claim,
executed under a lease, and recorded as completed, failed, blocked or rejected. A completed or
rejected action that leaves no other proposed prepares the review of the mission; Teachback and
closure follow. A mission whose last action ends otherwise is never reviewed.

This project models that machinery in Dafny and proves what it is for: no action is ever
executed twice or without authority, nothing recorded is lost, an approval covers exactly one
content, and every gate is passed in order. It also covers the managed upgrade with its
rollback, the append-once documentation patch, and the validator of action proposals.

Where the code does not do what its documentation or a reader would expect, the model keeps
the code and states the exact condition under which the expectation holds (listed under
"Where the expectation fails").

Verify everything with `dafny verify dfyconfig.toml`.

## How the files fit together

| file | content |
|---|---|
| `Common`, `Text`, `Registry` | results and checks, strings, skills, providers and constraints |
| `Authority`, `Builder`, `Authorisation` | documents, receipt, the checkpoint, the action builder, what an action id determines; the checkpoint as exact conditions on plain fields |
| `QueueProtocol` | the queue as a state machine: every file access of every process is one step; processes may die before any of them |
| `QueueClaims` | what claims guarantee even if the queue file is rewritten at will |
| `QueueSpoken` | the same for phrases: which begin of which operation stands behind every claim, dispatch, rejection and recovery |
| `QueueTable`, `QueueInvariant`, `QueueTheorems`, `QueueOrigins` | the inductive invariant of honest runs, the theorems drawn from it, and where every row comes from |
| `QueueRules`, `KonohaQueue`, `Recovery` | the program's own authority rules plugged into the protocol, the theorems for them, and recovery |
| `ReceiptProtocol` | racing approvers and non-atomic loads around the receipt |
| `Lifecycle`, `Session`, `SessionTheorems`, `Hokage` | review, Teachback and closure; the console over all missions of a workspace as functions, as theorems over whole sessions, and as the mutable object |
| `Decisions`, `ConsoleWords`, `Followups` | what each decision takes and changes, over calls and whole sessions; phrases, commands and restarts; what a decision appends, up to the patch tool |
| `QueueSequential`, `SessionRuns` | every call and every session as a run of the queue protocol |
| `Planning`, `Progress`, `Scenarios` | skills, provider selection and charter construction from an intent; when an approval goes through and when a mission stalls; sessions and runs that reach these situations from nothing |
| `Patch` | the append-once fold, dropped duplicates, preview, and the digest chain from operations to approved action |
| `Upgrade` | the upgrade transaction with a fault or a kill at every external action |
| `ProposalPaths`, `ProposalEvidence`, `ProposalValidator`, `ProposalReady` | the proposal validator with its shared list of blockers, and readiness in the contract's words |

The queue protocol is stated for arbitrary authority rules (`Rules`); `QueueRules.Konoha` are
the program's own. Statements `hide f, g;` at the head of a proof only keep definitions that
the proof does not need away from the solver.

## Assumptions

- `Config.sha` stands for SHA-256 of canonical JSON and `Config.shortId` for the truncated
  digest behind an action id. Lemmas that need it say so: `CollisionFree` (no two documents
  share a digest), `ShortIdsDistinct` (no two id materials share an id), `HexDigests` (digests
  are non-empty and hold no separator), `HexIds` (ids are `action-` and text without capitals).
- Files written through a temporary and a rename change atomically. Write-once files are
  created first and filled in a second step, so they can be absent, torn or written.
- A lock or lease of a dead process is free. An exception that unwinds an operation is treated
  like the death of its process, since both drop lock and lease and leave the files.
- The charter and decision files may hold anything at each read; results that need the reads to
  yield the files say so (`UnloadedActionsRest`, `Attentive`).
- After an exception that the console does not catch (a refused follow-up, a failed opening) the
  process of the program ends. The model's console may also go on with its memory, so what is
  proved of its sessions covers more than the program does.
- A phrase in the model is the phrase after stripping.
- A JSON string that the code compares with a known name (a provider, a skill, a tier) is taken
  in the constructor of that name: `Text("codex")`, `ProviderName(Codex)` and
  `OtherProvider("codex")` do not stand for the same argument side by side.
- The probe with which recovery tests a lease is an atomic read: it runs under the queue lock,
  as does every acquisition of a lease.

## Where the expectation fails

- An action refused just before dispatch should become blocked. It stays running, with nobody
  running it, exactly when the authority check that is repeated for blocking fails as well
  (`QueueTheorems.RefusedIsBlockedIffRecheckPasses`). Every mission can get there
  (`Scenarios.RefusedActionStaysRunning`).
- Charter approval promises that a second approval never overwrites frozen files. That is true
  exactly when no approver was still between its receipt check and its last write with other
  content (`ReceiptProtocol.FrozenFilesAreSafeIff`), and such approvers can exist
  (`ReceiptProtocol.ApprovalsCanRace`). What loads return is unaffected
  (`ReceiptProtocol.AllLoadsAgree`).
- A new request is not held to the receipt at all. A mission whose documents load keeps them
  through a request if and only if the request does not replace one of them: it is for another
  mission, cannot be built, or is cut short after writing the decision that was there already
  (`SessionTheorems.ReproposalUnloadsIff`). Both failing inputs are reached from an empty
  workspace (`Scenarios.ReproposalStopsTheMission`, `Scenarios.CutReproposalUnloads`). The cost:
  while the documents do not load no phrase does anything to the mission's actions
  (`SessionTheorems.UnloadedActionsRest`), and once the charter file is a proposal that stays so,
  whatever is typed, approved, proposed or restarted, until somebody edits the files
  (`SessionTheorems.UnapprovedForEver`).
- A validated mission need not consist of completed and rejected actions: blocked ones reach no
  counter (`Lifecycle.AcceptedMeansDecidedIffNoneBlocked`). A session that ends with a review
  proposed over a blocked action: `Scenarios.ReviewOverABlockedAction`.
- That nothing is pending does not mean that a review follows. A mission with a receipt and no
  proposed action has a review at any later moment if and only if it has one now
  (`SessionTheorems.ReviewNowOrNever`): the console takes later lines as new requests, but
  whatever they are, such a mission's queue, claims, receipt, log and records never change again
  (`SessionTheorems.StalledForEver`). The line that leaves no action proposed either ends with
  the review or has stalled the mission (`SessionTheorems.LastDecisionReviewsOrStalls`). Each way
  to stall is reached from an empty workspace: a last action that fails, is blocked or is left
  running (`Scenarios.UnsuccessfulLastActionStalls`); an approval cut short between receipt and
  queue (`Scenarios.UnopenedMissionStalls`); and the follow-up of an audit, which a charter
  accepts if and only if a patch was implied (`Planning.FollowupsAcceptedIffPatchImplied`,
  `Scenarios.AuditOnlySessionStalls`).
- A failed upgrade leaves HEAD and state file as they were, except for a checkout that raises
  after moving HEAD and for second faults during rollback
  (`Upgrade.FailureIsIntactIff`, `Upgrade.TimedOutCheckoutIsNotUndone`).
- Path normalisation is not idempotent, exactly where stripping `./` uncovers a drive or a space
  (`ProposalPaths.NormalizeTwiceIff`).
- Applying one append-once operation is idempotent on every text exactly if its appended section
  shows its marker (`Patch.CarriesIsExact`). For a list this is sufficient, not necessary (a
  marker may stand in another operation's section); that dropping duplicates keeps the meaning
  (`Patch.DedupeKeepsMeaning`) is likewise stated for lists whose operations all show theirs.
- The review check alone does not tie the review level to the risk; it does if and only if the
  contract has a review rule, on which another check insists
  (`ProposalValidator.ReviewFitsRiskIffRule`).

## Model

| member | source | states |
|---|---|---|
| `QueueClaims.AtMostOneDispatch` | tools/hokage_orchestrator/skill_runtime.py:880-998 | in every run of any number of processes, with crashes anywhere and the queue file rewritten at will, an action id reaches the dispatcher at most once |
| `QueueClaims.AccountableHolds` | tools/hokage_orchestrator/skill_runtime.py:928-970 | every dispatch was made by the process that created the claim, the claim is written and bound to exactly that action, and the pre-dispatch check accepted it |
| `QueueClaims.EveryMoveIsGood` | tools/hokage_orchestrator/skill_runtime.py:718-1169 | each step keeps what its own process relies on and takes nothing away from the others |
| `QueueClaims.LeaseBelongsToTheClaimant` | tools/hokage_orchestrator/skill_runtime.py:390-422 | right after a fresh claim the lease is free; while a process holds it nobody else can take or seize it |
| `QueueClaims.LeasesAreExclusive` | tools/hokage_orchestrator/skill_runtime.py:390-422 | no step hands a held lease to another process |
| `QueueSpoken.EveryDispatchWasAskedFor` | tools/hokage_orchestrator/skill_runtime.py:903-932 | behind every dispatch of every run, queue edits included, stands an earlier begin of an approval by the same process, for this id, by this action's approval phrase, with a non-empty approver; name and time of the claim and of the action's evidence are those given then |
| `QueueSpoken.EveryClaimWasAskedFor` | tools/hokage_orchestrator/skill_runtime.py:903-932 | no claim file is created but for an unclaimed action, by its approval phrase, by a named approver, after the authority check accepted it as proposed |
| `QueueSpoken.EveryRejectionWasAskedFor` | tools/hokage_orchestrator/skill_runtime.py:1013-1049 | no row is rejected but by the rejection phrase and hash of that row, with the authority check accepting it |
| `QueueSpoken.EveryRecoveryWasAskedFor` | tools/hokage_orchestrator/skill_runtime.py:1129-1169 | no interrupted action is blocked but by its recovery phrase and hash, with the authority check accepting it |
| `QueueInvariant.HonestInvariantHolds` | tools/hokage_orchestrator/skill_runtime.py:821-1049 | the inductive invariant of queue, claims, leases, snapshots and log in every reachable state |
| `QueueInvariant.FinishCannotFail` | tools/hokage_orchestrator/skill_runtime.py:969-998 | the final move to completed or failed never fails on status, hash or claim |
| `QueueTheorems.StatusMatchesHistory` | tools/hokage_orchestrator/skill_runtime.py:821-1049 | running, completed, failed or blocked: a written claim bound to the action; rejected: no claim file; proposed or rejected: never dispatched; completed or failed: dispatched exactly once |
| `QueueTheorems.OwnedDispatchIsProtected` | tools/hokage_orchestrator/skill_runtime.py:928-998 | while a live process owns a dispatch its action stays running and leased, recovery cannot seize it, and the final write succeeds |
| `QueueTheorems.RefusedIsBlockedIffRecheckPasses` | tools/hokage_orchestrator/skill_runtime.py:949-965 | a refused action becomes blocked if and only if the repeated authority check passes; otherwise it stays running with a free lease |
| `QueueTheorems.EveryStepIsAbstract` | tools/hokage_orchestrator/skill_runtime.py:766-848 | refinement: whole-file writes from snapshots amount to advancing one action, adding one fresh action under a new id, or filling a missing queue, with mission, plan and all other actions unchanged |
| `QueueTheorems.NoLostUpdates` | tools/hokage_orchestrator/skill_runtime.py:969-998 | between any two moments of a run nothing queued disappears, no content changes and no finished action is touched |
| `QueueOrigins.EveryRowWasAdmitted` | tools/hokage_orchestrator/skill_runtime.py:718-819 | every row of every honest run was made by the builder from the charter and decision that the receipt names, and was admitted by that charter for its tier |
| `QueueOrigins.BuiltPhrasesAreSpecific` | tools/hokage_orchestrator/skill_runtime.py:612-634 | for built actions with hexadecimal ids, equal approval or rejection phrases mean equal ids, and no phrase that approves one action rejects or recovers another |
| `QueueOrigins.PhrasesNameRows` | tools/hokage_orchestrator/skill_runtime.py:612-634 | so in every honest run one approval or rejection phrase names one row, and never both kinds |
| `QueueProtocol.Find` | tools/hokage_orchestrator/skill_runtime.py:685-689 | the found index carries the id, and None means no action does |
| `QueueTable.TableIsFind` | tools/hokage_orchestrator/skill_runtime.py:685-689 | the queue read as a map from id to action shows exactly what a lookup finds |
| `QueueRules.KonohaIsFresh` | tools/hokage_orchestrator/skill_runtime.py:718-764 | the program's rules only ever queue fresh proposals under different ids |
| `KonohaQueue.StatusIsHistory` | tools/hokage_orchestrator/skill_runtime.py:821-1049 | status against claim and dispatches, for the program's rules under the hashing assumptions alone |
| `KonohaQueue.NothingIsLost` | tools/hokage_orchestrator/skill_runtime.py:969-998 | no lost updates, likewise |
| `KonohaQueue.DispatchIsProtected` | tools/hokage_orchestrator/skill_runtime.py:928-998 | an owned dispatch is protected, likewise |
| `KonohaQueue.RecoveryIsRight` | tools/hokage_orchestrator/skill_runtime.py:1051-1111 | recovery raises exactly for torn claims and labels exactly by live ownership, likewise |
| `QueueRules.EveryDispatchIsAuthorised` | tools/hokage_orchestrator/authority.py:679-830 | every dispatched action is bound by its arguments to the charter and decision that the receipt names by id and digest, allowed for its tier and not forbidden, runs on exactly the decided provider, model, strategy, source and capabilities, and breaks no human constraint |
| `QueueRules.PassedMeansAuthorised` | tools/hokage_orchestrator/authority.py:679-830 | what one passed pre-dispatch check establishes, in the receipt's terms |
| `QueueRules.PassedMeansDocuments` | tools/hokage_orchestrator/authority.py:572-598 | a passed check has read a charter, a decision and a receipt |
| `QueueRules.OneCharterPerRun` | tools/hokage_orchestrator/authority.py:549-598 | all dispatches of a run were authorised by one charter and one decision |
| `QueueRules.ApprovalBindsContent` | tools/hokage_orchestrator/skill_runtime.py:905-932 | a dispatch under the id of a built proposal has that proposal's mission, skill and arguments, however the queue was edited in between |
| `Authorisation.LoadIff` | tools/hokage_orchestrator/authority.py:549-598 | three documents load exactly if they are an approved charter with ordered skill lists, its own decision and the receipt that digests both, in the directory of their mission |
| `Authorisation.ConstructionIff` | tools/hokage_orchestrator/authority.py:601-651 | a charter can be built exactly if it belongs to its decision, respects locality, writes memory unless restricted, and every listed skill may run with the provider, given as a table of skills |
| `Authorisation.CheckpointIff` | tools/hokage_orchestrator/authority.py:679-830 | an action passes a stage exactly if the documents load, hash and id are those of its content, the arguments name both documents and the selection, the charter allows it, and tier, status and evidence fit the stage |
| `Authorisation.EveryDispatchWasCleared` | tools/hokage_orchestrator/authority.py:679-830 | all of that holds of every dispatched action of every run, field by field, with the approval recorded in its evidence |
| `Authorisation.LoadDiagnosisIsTrue` | tools/hokage_orchestrator/authority.py:549-598 | the code of a failed load names a fault that the files really have |
| `Authorisation.DiagnosisIsTrue` | tools/hokage_orchestrator/authority.py:679-830 | the code of a failed check names a fault that the action really has |
| `Registry.CapabilitiesAreExact` | tools/hokage_orchestrator/skill_runtime.py:206-240 | which skill runs with which provider, and what it may do: only the patch mutates, only Codex uses the network, only Ollama the local transport |
| `QueueSequential.ApprovalIsARun` | tools/hokage_orchestrator/skill_runtime.py:903-998 | every approval, refused, cut short at any write, blocked, failed or completed, is a sequence of protocol steps of its process to the same files, with lock and lease free again and all other processes untouched |
| `QueueSequential.RejectionSimulates` | tools/hokage_orchestrator/skill_runtime.py:1013-1049 | so is every rejection |
| `QueueSequential.AppendSimulates` | tools/hokage_orchestrator/skill_runtime.py:774-819 | so is every append of a follow-up |
| `QueueSequential.OpeningSimulates` | tools/hokage_orchestrator/skill_runtime.py:718-764 | so is the opening of a queue |
| `QueueSequential.RecoveryBlocksIff` | tools/hokage_orchestrator/skill_runtime.py:1113-1169 | human recovery runs through exactly for a proposed or running action named by hash and recovery phrase, covered by its claim, leased by nobody and authorised both times; it blocks that action and leaves everything else |
| `SessionRuns.SessionIsARun` | tools/hokage_orchestrator/run_conversational_hokage.py:1584-1888 | at every moment of every session, queue, claims, receipt and dispatches of every mission are those at the end of an honest run of the queue protocol |
| `SessionRuns.SessionStatusIsHistory` | tools/hokage_orchestrator/run_conversational_hokage.py:1061-1223 | so in every session each action's status agrees with its claim and with what was dispatched |
| `SessionRuns.SessionRowsWereAdmitted` | tools/hokage_orchestrator/run_conversational_hokage.py:1584-1888 | in every session each row was made by the builder and admitted by the charter of the receipt |
| `SessionRuns.SessionPhrasesNameRows` | tools/hokage_orchestrator/run_conversational_hokage.py:1765-1800 | in every reachable desk rows with one approval or rejection phrase are one row |
| `Recovery.FindRecoveryCandidates` | tools/hokage_orchestrator/skill_runtime.py:1051-1111 | the loop answers with the classification of every pending action in order, or the first error |
| `Recovery.RecoveryRaisesOnlyForTornClaims` | tools/hokage_orchestrator/skill_runtime.py:1075-1101 | in every reachable state recovery raises exactly when a proposed action's claim file is torn, never for a missing or mis-bound claim |
| `Recovery.RecoveryIsExact` | tools/hokage_orchestrator/skill_runtime.py:425-441 | active_running exactly when a live process owns the dispatch, interrupted_running exactly when none does |
| `Recovery.PendingLabelsAreExact` | tools/hokage_orchestrator/skill_runtime.py:1066-1111 | when it does not raise, each of the four labels is given exactly for its combination of status, claim and lease, and to no decided action |
| `ReceiptProtocol.AllLoadsAgree` | tools/hokage_orchestrator/authority.py:479-598 | all successful loads of a run return the pair digested by whoever created the receipt, despite racing approvers, edits, crashes and non-atomic reads |
| `ReceiptProtocol.FrozenHolds` | tools/hokage_orchestrator/authority.py:264-303 | the receipt is what its creator promised and never changes |
| `ReceiptProtocol.FrozenWasApproved` | tools/hokage_orchestrator/charter.py:286-334 | the frozen pair was approved earlier, by the charter's own phrase and a named person, as a proposal that could be built and while there was no receipt; name and time in it are that person's |
| `ReceiptProtocol.JoinedAgrees` | tools/hokage_orchestrator/authority.py:264-303 | an approver that loses the race for the receipt succeeds only with the very pair that is frozen |
| `ReceiptProtocol.FrozenFilesAreSafeIff` | tools/hokage_orchestrator/charter.py:308-334 | frozen charter and decision files are safe from approvals if and only if no late approver holds other content |
| `ReceiptProtocol.LateApproverOverwrites` | tools/hokage_orchestrator/charter.py:310-325 | a late approver overwrites a frozen file within two moves |
| `ReceiptProtocol.ApprovalsCanRace` | tools/hokage_orchestrator/charter.py:308-334 | for every charter that can be approved, two approvals can race into such a state |
| `Registry.SpellIsInjective` | tools/hokage_orchestrator/skill_runtime.py:52-141 | registered skill names are different and hold no separator |
| `Authority.CheckSkills` | tools/hokage_orchestrator/authority.py:641-651 | passes exactly when every listed skill fits the constraints with the provider |
| `Builder.ConstructionMeansEverySkillFits` | tools/hokage_orchestrator/authority.py:601-651 | a constructed charter's skills are registered, not forbidden and compatible with its constraints |
| `Builder.ApprovedPairLoads` | tools/hokage_orchestrator/authority.py:479-598 | the freshly written receipt lets the approved pair load |
| `Builder.ExtrasNeverOverride` | tools/hokage_orchestrator/skill_runtime.py:583-610 | extra arguments never reach a binding key |
| `Builder.BuiltActionsPass` | tools/hokage_orchestrator/skill_runtime.py:564-640 | every action built for a proposed or allowed follow-up skill passes the checkpoint at which it enters the queue, and restore afterwards |
| `Builder.PhrasesAreSpecific` | tools/hokage_orchestrator/skill_runtime.py:617-634 | ids that differ behind their first dash differ in all three phrases, whose heads differ as well |
| `Builder.PassedIdentity` | tools/hokage_orchestrator/authority.py:690-745 | a passed check at any stage has the hash and id of its own content |
| `Builder.IdMaterialIsInjective` | tools/hokage_orchestrator/authority.py:164-167 | the material `mission\|skill\|hash` can be parsed back, whatever the mission id holds |
| `Builder.ActionIdIsInjective` | tools/hokage_orchestrator/authority.py:160-167 | an action id determines mission, skill and arguments |
| `Builder.IdBindsContent` | tools/hokage_orchestrator/authority.py:723-733 | two actions with one id that pass the checkpoint agree on mission, skill, arguments, plan and tier |
| `Builder.BuiltIdsDistinct` | tools/hokage_orchestrator/skill_runtime.py:612-616 | built actions share an id only for the same skill and arguments |
| `Lifecycle.ValidateActions` | tools/hokage_orchestrator/lifecycle.py:84-188 | the counting loop and the evidence loop accept exactly the queues in which something was completed, nothing failed or is pending and all evidence is in order, and return their counts |
| `Lifecycle.CountsMeanSettled` | tools/hokage_orchestrator/lifecycle.py:94-145 | the counters decide settledness: something completed, nothing failed or pending |
| `Lifecycle.AcceptedIff` | tools/hokage_orchestrator/lifecycle.py:84-188 | a queue is accepted exactly if something was completed, all else is completed, rejected or blocked, and every file named by a report is there without a bad exit code or status |
| `Lifecycle.AcceptedMeansDecidedIffNoneBlocked` | tools/hokage_orchestrator/lifecycle.py:94-107 | an accepted queue consists of completed and rejected actions, and its two counters cover it, if and only if nothing is blocked |
| `Lifecycle.BlockedActionsPassValidation` | tools/hokage_orchestrator/lifecycle.py:94-107 | a completed action with evidence in order and a blocked one are accepted together |
| `Lifecycle.LifecycleStore.BuildReviewProposal` | tools/hokage_orchestrator/lifecycle.py:190-250 | a review is proposed only over a settled, proven queue; an existing one is returned as is |
| `Lifecycle.LifecycleStore.MarkReviewRecorded` | tools/hokage_orchestrator/lifecycle.py:252-294 | records the review exactly on one evidence file that says approved by a human, and keeps the order of records |
| `Lifecycle.LifecycleStore.BuildTeachbackRequest` | tools/hokage_orchestrator/lifecycle.py:296-351 | asks for Teachback only after a recorded review |
| `Lifecycle.LifecycleStore.MarkTeachbackRecorded` | tools/hokage_orchestrator/lifecycle.py:353-394 | records Teachback exactly on a passed record completed by the user |
| `Lifecycle.LifecycleStore.BuildClosureProposal` | tools/hokage_orchestrator/lifecycle.py:396-463 | proposes closure only after recorded review and Teachback |
| `Lifecycle.LifecycleStore.MarkClosed` | tools/hokage_orchestrator/lifecycle.py:465-494 | closes exactly an existing proposal on a passed closure result with its code |
| `Hokage.FindLocked` | tools/hokage_orchestrator/skill_runtime.py:685-689 | the scan returns the first action with the id |
| `Hokage.NextPending` | tools/hokage_orchestrator/skill_runtime.py:691-695 | the scan returns the first proposed action |
| `Hokage.ConversationalHokage.TransitionLocked` | tools/hokage_orchestrator/skill_runtime.py:821-848 | compare-and-set of one action's status and evidence; on any mismatch nothing is written |
| `Hokage.ConversationalHokage.MarkBlockedLocked` | tools/hokage_orchestrator/skill_runtime.py:850-878 | blocks after a repeated authority check; otherwise nothing is written |
| `Hokage.ConversationalHokage.ApproveAndDispatch` | tools/hokage_orchestrator/skill_runtime.py:880-998 | claim, start, check, dispatch and finish in place, cut short anywhere: either the call fails and queue and log are as before, or exactly one action leaves proposed; success means that action completed; a claimed action is never touched |
| `Hokage.ConversationalHokage.RejectActionChecked` | tools/hokage_orchestrator/skill_runtime.py:1000-1049 | rejects exactly a proposed, unclaimed action with the right hash, authority and phrase; otherwise nothing changes |
| `Hokage.ConversationalHokage.AppendActionChecked` | tools/hokage_orchestrator/skill_runtime.py:766-819 | appends a fresh candidate once; an equal existing action is only re-checked; earlier actions stay in place |
| `Hokage.ConversationalHokage.ApproveAction` | tools/hokage_orchestrator/run_conversational_hokage.py:1061-1153 | approval, follow-ups outside the try, then the next action or a review; a successful approval adds at most one row, the follow-up its action calls for; a change of the queue lowers its weight and the records stay in order |
| `Hokage.ConversationalHokage.RejectAction` | tools/hokage_orchestrator/run_conversational_hokage.py:1155-1223 | rejection, the tests after a rejected patch, then the next action or a review; weight and order as for approval |
| `Hokage.ConversationalHokage.ApproveReview` | tools/hokage_orchestrator/run_conversational_hokage.py:1225-1264 | records the review, then asks for Teachback |
| `Hokage.ConversationalHokage.RecordTeachback` | tools/hokage_orchestrator/run_conversational_hokage.py:1292-1346 | records a long enough explanation, then proposes closure |
| `Hokage.ConversationalHokage.FreezeCharter` | tools/hokage_orchestrator/charter.py:286-334 | decision, charter and receipt in order, cut short anywhere; nothing is written once a receipt exists |
| `Hokage.ConversationalHokage.RestoreLocked` | tools/hokage_orchestrator/skill_runtime.py:697-705 | the loop accepts exactly the queues whose every action passes restore and whose running ones have their claim |
| `Hokage.ConversationalHokage.InitializeQueue` | tools/hokage_orchestrator/skill_runtime.py:718-764 | builds a missing queue; an existing one is only read back |
| `Hokage.ConversationalHokage.ApproveCharter` | tools/hokage_orchestrator/run_conversational_hokage.py:601-676 | approval and opening of the queue; with a receipt it fails and every file stays |
| `Hokage.ConversationalHokage.ProposeMission` | tools/hokage_orchestrator/run_conversational_hokage.py:549-583 | overwrites the decision and charter files of the mission asked for and opens it |
| `Hokage.ConversationalHokage.AtCharter` | tools/hokage_orchestrator/run_conversational_hokage.py:1705-1728 | the gate of a pending charter: approve, reject, or wait |
| `Hokage.ConversationalHokage.Interact` | tools/hokage_orchestrator/run_conversational_hokage.py:1584-1888 | one line goes to the first open gate, or else is a new request; for every mission the records stay in order, a review is final, a change of the queue lowers its weight, and a stalled mission keeps all but its charter and decision files |
| `Hokage.ConversationalHokage.Reopen` | tools/hokage_orchestrator/run_conversational_hokage.py:469-515 | a new process opens the active mission and takes up a charter that is still only proposed |
| `Hokage.ConversationalHokage.OneShot` | tools/hokage_orchestrator/run_conversational_hokage.py:1890-1892 | a process that only proposes touches nothing but charter and decision files |
| `SessionTheorems.ApproveDecides` | tools/hokage_orchestrator/skill_runtime.py:903-998 | an approval either fails and leaves queue and log alone, or moves exactly one action out of proposed; it succeeds only with that action completed |
| `SessionTheorems.FollowupsAreCheaper` | tools/hokage_orchestrator/run_conversational_hokage.py:891-922 | a follow-up always weighs less than the action that calls for it |
| `Followups.ApprovalAppendsFollowup` | tools/hokage_orchestrator/run_conversational_hokage.py:891-922 | after a successful approval the rows are those of its dispatch plus at most one: after an audit that reports a patch, the application of exactly that patch by its id, digest, plan and paths; after an audit without one and after a patch, the tests; after anything else nothing |
| `Followups.AcceptableFollowupIsAppended` | tools/hokage_orchestrator/run_conversational_hokage.py:891-922 | a follow-up that the documents allow and that is new is appended; where none is called for nothing is |
| `Followups.RejectionAppendsTests` | tools/hokage_orchestrator/run_conversational_hokage.py:1200-1215 | a rejection appends at most the tests, and only after a rejected patch |
| `Followups.AcceptableTestsAreAppended` | tools/hokage_orchestrator/run_conversational_hokage.py:875-889 | and it does append them when the documents allow it |
| `Followups.AuditedPatchIsApplied` | tools/hokage_orchestrator/audit_flow.py:832-843 | from the audit to the patch tool: if an audit completed with the proposal for some operations and its follow-up was appended, then whatever is dispatched under that id and passes the checks before the patch tool applies those operations, for that mission, with that preview and that live proposal |
| `SessionTheorems.ApprovalSpends` | tools/hokage_orchestrator/run_conversational_hokage.py:1061-1141 | an approval that changes the queue strictly lowers its weight, follow-ups included |
| `SessionTheorems.RejectionSpends` | tools/hokage_orchestrator/run_conversational_hokage.py:1155-1215 | so does a rejection |
| `SessionTheorems.ReactKeeps` | tools/hokage_orchestrator/run_conversational_hokage.py:1584-1888 | whatever is typed, restarted or edited, the files of every mission follow the rules |
| `SessionTheorems.DecisionsAreBounded` | tools/hokage_orchestrator/run_conversational_hokage.py:875-1223 | in every session the inputs that change a mission's queue or dispatch something number at most the weight of the queue, so at most three per queued action |
| `SessionTheorems.ClosedMeansReviewedMeansSettled` | tools/hokage_orchestrator/lifecycle.py:190-494 | in every reachable state closed implies Teachback recorded, which implies review recorded, which implies a settled queue whose mission and counts are those of the review |
| `SessionTheorems.ReviewIsFinal` | tools/hokage_orchestrator/run_conversational_hokage.py:825-837 | once a review is proposed nothing of that mission is dispatched, queued or claimed any more |
| `Decisions.DispatchIsSpoken` | tools/hokage_orchestrator/run_conversational_hokage.py:1061-1090 | in every session, a dispatch happens only to the next action of the open mission, unclaimed, on a line that is its approval phrase, and carries the name and time of that line; no other input dispatches |
| `Decisions.ReceiptIsSpoken` | tools/hokage_orchestrator/run_conversational_hokage.py:601-676 | in every session a receipt appears only when the pending charter is approved by its phrase and a named person |
| `Decisions.RecordsMoveAsSpoken` | tools/hokage_orchestrator/run_conversational_hokage.py:1225-1413 | in every session a review is recorded, sent back, taught back and closed only by its own phrase or a long enough explanation, on the evidence each step demands |
| `Decisions.RecordsAreSpoken` | tools/hokage_orchestrator/run_conversational_hokage.py:1225-1413 | what one line at the record gates may change |
| `Decisions.RecordsAdvance` | tools/hokage_orchestrator/run_conversational_hokage.py:1225-1413 | and the right line on the right evidence does advance the records |
| `Decisions.ClaimVerifiesIff` | tools/hokage_orchestrator/skill_runtime.py:511-561 | a written claim covers exactly the action it was made for, with the approval that made it |
| `Decisions.SecondClaimFails` | tools/hokage_orchestrator/skill_runtime.py:444-508 | a second claim is never published; it learns whether the first is torn, for the same content or for another |
| `Decisions.RejectionSucceedsIff` | tools/hokage_orchestrator/skill_runtime.py:1013-1049 | a rejection succeeds exactly for a proposed, unclaimed, authorised action named by hash and phrase, then rejects that row alone, and otherwise changes nothing |
| `Decisions.UnknownIsRefused` | tools/hokage_orchestrator/skill_runtime.py:685-689 | nobody decides on an action that is not queued |
| `Decisions.UnreadableQueueStops` | tools/hokage_orchestrator/skill_runtime.py:655-683 | over an unreadable or outdated queue every operation fails with the code for it and changes nothing |
| `Decisions.UnopenedTakesNoFollowup` | tools/hokage_orchestrator/skill_runtime.py:783-800 | nothing is appended to a missing queue or to the queue of another mission |
| `Decisions.AppendDecides` | tools/hokage_orchestrator/skill_runtime.py:783-819 | a candidate under a new id is appended exactly if it passes; under a taken id the queue stays and the call succeeds exactly for the same proposal that still passes |
| `Decisions.AppendIsIdempotent` | tools/hokage_orchestrator/skill_runtime.py:766-819 | a second append of the same follow-up succeeds and changes nothing |
| `Decisions.FreezingSucceedsIff` | tools/hokage_orchestrator/charter.py:286-334 | the exact condition under which a charter is approved, and the three files it then leaves |
| `Decisions.OpenedForItsMission` | tools/hokage_orchestrator/skill_runtime.py:718-764 | a queue is opened only for the mission of its directory: one fresh initial action per proposed skill, in order |
| `ConsoleWords.CommandsIff` | tools/hokage_orchestrator/run_conversational_hokage.py:1606-1680 | which lines are commands, letter by letter |
| `ConsoleWords.CommandsAreIgnored` | tools/hokage_orchestrator/run_conversational_hokage.py:1606-1680 | commands and empty lines change nothing in any state |
| `ConsoleWords.RecordPhrasesAreSpecific` | tools/hokage_orchestrator/lifecycle.py:236-243 | a record phrase fits one record, and accepting, sending back and closing never share one |
| `ConsoleWords.BuiltCharterSays` | tools/hokage_orchestrator/charter.py:184-255 | a built charter carries its own phrases, the constraints, the decision by id and digest, and both skill lists, proposed and not yet approved |
| `ConsoleWords.CharterPhrasesAreSpecific` | tools/hokage_orchestrator/charter.py:43-50 | the phrases of built charters fit one charter, and approving is never rejecting |
| `ConsoleWords.ProposalSurvivesRestart` | tools/hokage_orchestrator/run_conversational_hokage.py:469-515 | a new process finds a proposal as the old one left it |
| `ConsoleWords.ApprovalSurvivesRestart` | tools/hokage_orchestrator/run_conversational_hokage.py:469-515 | and an approved mission open with nothing pending |
| `SessionTheorems.ClaimedIsNeverTakenOver` | tools/hokage_orchestrator/skill_runtime.py:444-508 | a claimed action is never approved again; the attempt leaves every file alone |
| `SessionTheorems.ReproposalUnloadsIff` | tools/hokage_orchestrator/run_conversational_hokage.py:549-583 | a mission whose documents load keeps them through a request if and only if the request does not replace its charter or its decision |
| `SessionTheorems.UnloadedActionsRest` | tools/hokage_orchestrator/skill_runtime.py:905-917 | while the documents do not load and the check reads these files, no phrase changes anything of the mission's actions |
| `SessionTheorems.UnapprovedForEver` | tools/hokage_orchestrator/charter.py:302-317 | once an approved mission's charter file is a proposal, its queue, claims, receipt and log never change, over every sequence of inputs without an edit of its documents |
| `SessionTheorems.RefusedFollowupStalls` | tools/hokage_orchestrator/run_conversational_hokage.py:1132-1141 | when the last pending action completes and its follow-up is refused, the mission is stalled: approved, nothing pending, no record |
| `SessionTheorems.StalledForEver` | tools/hokage_orchestrator/run_conversational_hokage.py:1705-1888 | over every sequence of later inputs, new proposals, charter phrases, restarts and edits included, a mission with a receipt, no proposed action and no record keeps queue (or its absence), claims, receipt, log and records |
| `SessionTheorems.ReviewNowOrNever` | tools/hokage_orchestrator/run_conversational_hokage.py:1132-1141 | a mission with a receipt and no proposed action has a review at a later moment if and only if it has one now |
| `SessionTheorems.LastDecisionReviewsOrStalls` | tools/hokage_orchestrator/run_conversational_hokage.py:1073-1141 | the line that leaves no action proposed ends with a review exactly if it passes, and otherwise has stalled the mission |
| `SessionTheorems.OpeningCutShortStalls` | tools/hokage_orchestrator/run_conversational_hokage.py:611-650 | an approval that has published the receipt but not opened the queue stalls the mission without a queue |
| `Progress.ApprovalSucceedsIff` | tools/hokage_orchestrator/skill_runtime.py:903-998 | the approval of a fresh proposal succeeds if and only if action, status, claim, phrase, approver and both authority checks are right, nothing cuts it short and the dispatcher returns |
| `Progress.SecondCheckFollows` | tools/hokage_orchestrator/skill_runtime.py:949-953 | with unchanged documents a proposal that passes restore passes pre_dispatch once it runs |
| `Progress.EveryInitialActionCanComplete` | tools/hokage_orchestrator/skill_runtime.py:718-998 | in an approved, untouched mission the right phrase for any initial action dispatches exactly that action and completes it |
| `Progress.UnlistedFollowupStops` | tools/hokage_orchestrator/skill_runtime.py:783-819 | a follow-up the charter does not list is refused, whether new or already queued |
| `Progress.SuccessIsExact` | tools/hokage_orchestrator/skill_runtime.py:969-998 | what a successful approval leaves: one action completed with its evidence, its claim, one dispatch, nothing else |
| `Progress.SuccessLeaves` | tools/hokage_orchestrator/skill_runtime.py:928-998 | the same field by field: evidence, claim and dispatched action carry approver, time and hash of this approval |
| `Progress.FailureIsExact` | tools/hokage_orchestrator/skill_runtime.py:969-983 | what a raising dispatcher leaves: the action failed, its claim, one dispatch |
| `Progress.RefusalIsExact` | tools/hokage_orchestrator/skill_runtime.py:949-965 | what a refused one leaves: the action blocked if the repeated check passes, running if not, its claim, no dispatch |
| `Progress.AuditOnlyMissionStalls` | tools/hokage_orchestrator/run_conversational_hokage.py:1132-1141 | completing the audit of a mission without a patch as its last action ends in a refusal and stalls the mission |
| `Scenarios.DecidedMissionsStart` | tools/hokage_orchestrator/charter.py:184-255 | the missions of the scenarios exist for every decision made for their intent |
| `Scenarios.MissionOpens` | tools/hokage_orchestrator/run_conversational_hokage.py:517-676 | every mission that can be built can be asked for and approved, from an empty workspace to its queue |
| `Scenarios.ReviewOverABlockedAction` | tools/hokage_orchestrator/lifecycle.py:94-107 | a session from an empty workspace that ends with a review proposed over a blocked action |
| `Scenarios.AuditOnlySessionStalls` | tools/hokage_orchestrator/run_conversational_hokage.py:1132-1141 | a session from an empty workspace in which every action of an audit-only mission completes and after which nothing of it ever changes again |
| `Scenarios.RefusedActionStaysRunning` | tools/hokage_orchestrator/skill_runtime.py:949-965 | an honest run from an empty directory to an action that is refused, cannot be blocked, and stays running with its lease free |
| `Scenarios.UnsuccessfulLastActionStalls` | tools/hokage_orchestrator/run_conversational_hokage.py:1073-1130 | sessions from an empty workspace whose last action fails, is blocked or is left running, and which stall although a patch is implied |
| `Scenarios.UnopenedMissionStalls` | tools/hokage_orchestrator/run_conversational_hokage.py:636-650 | a session from an empty workspace to a mission with a receipt that never gets a queue |
| `Scenarios.ReproposalStopsTheMission` | tools/hokage_orchestrator/run_conversational_hokage.py:1890-1892 | a session in which an approved mission is asked for once more and whose documents then do not load |
| `Scenarios.CutReproposalUnloads` | tools/hokage_orchestrator/run_conversational_hokage.py:563-567 | the same with a request cut short after its decision file |
| `Planning.SelectProvider` | tools/hokage_orchestrator/mission_decision.py:214-299 | the first provider in priority order that is ready, supported and compatible; fails exactly when there is none |
| `Planning.SelectionFits` | tools/hokage_orchestrator/mission_decision.py:241-271 | the selected provider is ready, fits every constraint, is local under local_model_only and Ollama for the audit |
| `Planning.SelectionByCategory` | tools/hokage_orchestrator/mission_decision.py:214-299 | the selected provider, model, strategy and source by constraint, category, readiness and complexity |
| `Planning.DedupeNames` | tools/hokage_orchestrator/charter.py:20-28 | each stripped, non-empty name once, in order of first appearance |
| `Planning.SkillListsNeedNoDedupe` | tools/hokage_orchestrator/charter.py:165-181 | on both skill lists dropping repetitions changes nothing |
| `Planning.SkillListsAreSound` | tools/hokage_orchestrator/charter.py:124-181 | the skill lists are registered and free of repetitions; the audit is proposed exactly when requested, the patch skills exactly when implied |
| `Planning.SkillListsByIntent` | tools/hokage_orchestrator/charter.py:124-181 | both skill lists in order from the words of the intent |
| `Planning.CharterFailsExactlyOnForbiddenPatch` | tools/hokage_orchestrator/charter.py:184-255 | with the decision made for its intent, a charter can be built exactly unless mutation is forbidden and a patch implied |
| `Planning.ApprovedMissionStarts` | tools/hokage_orchestrator/skill_runtime.py:718-764 | an approved charter always yields a queue: one proposed action per proposed skill, in order |
| `Planning.FollowupsAcceptedIffPatchImplied` | tools/hokage_orchestrator/run_conversational_hokage.py:891-922 | for a charter built from an intent, follow-ups are accepted if and only if a patch was implied |
| `Planning.InspectionAuditsWithoutPatch` | tools/hokage_orchestrator/charter.py:156-179 | an intent that proposes the audit and implies no patch |
| `Patch.FoldExtends` | tools/hokage_orchestrator/audit_flow.py:599-608 | the old text is a prefix of the new one |
| `Patch.FoldShows` | tools/hokage_orchestrator/audit_flow.py:599-608 | every marker is present afterwards |
| `Patch.FoldIsIdempotent` | tools/hokage_orchestrator/audit_flow.py:599-608 | a second fold changes nothing |
| `Patch.MarkedContentCarries` | tools/hokage_orchestrator/audit_flow.py:608-608 | an operation whose stripped content contains its marker meets the condition of the fold lemmas |
| `Patch.CarriesIsExact` | tools/hokage_orchestrator/audit_flow.py:600-608 | one operation is idempotent on every text if and only if its appended section shows its marker |
| `Patch.UnmarkedContentRepeats` | tools/hokage_orchestrator/audit_flow.py:600-608 | an operation that is appended twice |
| `Patch.DedupeOperations` | tools/hokage_orchestrator/audit_flow.py:562-578 | the loop keeps the first operation of each key |
| `Patch.DedupeIsExact` | tools/hokage_orchestrator/audit_flow.py:562-578 | no key twice, no key lost, nothing invented |
| `Patch.DedupeKeepsMeaning` | tools/hokage_orchestrator/audit_flow.py:562-608 | dropping duplicates does not change what any file becomes |
| `Patch.FoldOperations` | tools/hokage_orchestrator/audit_flow.py:599-608 | the loop computes the fold; old text kept, markers present |
| `Patch.PatchPreview` | tools/hokage_orchestrator/audit_flow.py:580-618 | groups operations by path and concatenates the diffs of the folded files in path order |
| `Patch.ProposalIsExact` | tools/hokage_orchestrator/audit_flow.py:715-770 | a proposal digests mission, operations and preview together, is named after that digest and lists exactly the paths of its operations |
| `Patch.AppliedPatchIsTheApprovedOne` | tools/hokage_orchestrator/audit_flow.py:832-843 | if the checks before the patch tool pass, the operations in the plan file, the mission, the preview and the live proposal's id, digest and paths are those of the proposal behind the approved action id, whatever was edited since |
| `Upgrade.ParseShow` | tools/distribution/manage_konoha_distribution.py:66-72 | every version is the reading of its own spelling |
| `Upgrade.ParseVersionReads` | tools/distribution/manage_konoha_distribution.py:66-72 | every text vA.B.C of decimal numbers is read as those numbers |
| `Upgrade.ParsedVersionParts` | tools/distribution/manage_konoha_distribution.py:66-72 | and nothing else is read |
| `Upgrade.ManagedInstall.TryUpgrade` | tools/distribution/manage_konoha_distribution.py:464-545 | the guarded part in place, with a fault or kill at every external action |
| `Upgrade.ManagedInstall.UndoUpgrade` | tools/distribution/manage_konoha_distribution.py:547-582 | the rollback branch in place, likewise |
| `Upgrade.ManagedInstall.PerformUpgrade` | tools/distribution/manage_konoha_distribution.py:416-582 | whatever changes anything has network, confirmation, token and a strictly newer version; success puts all three files at the target; a raising end is intact if and only if no fault was harmful; damage is always visible; only consistent installs mutate; the version never goes down |
| `Upgrade.SuccessIsComplete` | tools/distribution/manage_konoha_distribution.py:494-545 | success means HEAD, state file and marker at the target, healthy, and a strictly newer version |
| `Upgrade.UpgradedIff` | tools/distribution/manage_konoha_distribution.py:416-545 | success exactly for network, confirmation, the token UPGRADE_KONOHA_INSTALL, a strictly newer version, a sound installation, nine external actions that go through, the target's tag on the commit, and health afterwards |
| `Upgrade.BlockedIffNotAuthorised` | tools/distribution/manage_konoha_distribution.py:425-441 | a call is turned away before its first command, with nothing changed, exactly if caller or installation does not pass |
| `Upgrade.UpgradedFiles` | tools/distribution/manage_konoha_distribution.py:494-527 | the three files after a success, field by field |
| `Upgrade.EndingsHaveCauses` | tools/distribution/manage_konoha_distribution.py:442-582 | a call ends killed only by a kill, and with a broken rollback only after a completed checkout and a fault in the way back |
| `Upgrade.FailureIsIntactIff` | tools/distribution/manage_konoha_distribution.py:547-582 | a raising call leaves HEAD and state file as they were if and only if no harmful fault was injected |
| `Upgrade.FailedMeansRestored` | tools/distribution/manage_konoha_distribution.py:547-576 | after an ordinary failure HEAD and state file are as before and the marker speaks of the previous version or is untouched |
| `Upgrade.TimedOutCheckoutIsNotUndone` | tools/distribution/manage_konoha_distribution.py:464-479 | a checkout that raises after moving HEAD is not rolled back |
| `Upgrade.DamageIsVisible` | tools/distribution/manage_konoha_distribution.py:416-582 | however a call ends, HEAD and state are both as before, both at the target, or visibly apart |
| `Upgrade.OnlyConsistentInstallsMutate` | tools/distribution/manage_konoha_distribution.py:358-413 | a call changes something only if HEAD and tag agreed with the state file when it began |
| `Upgrade.VersionsOnlyGrow` | tools/distribution/manage_konoha_distribution.py:425-431 | through any history of calls the recorded version never goes down and every success is strictly above all earlier ones |
| `ProposalPaths.NormalizePath` | tools/action_proposal/validate_supervised_action_proposal.py:164-182 | the loops compute the normal form; an answer is `.` or has no empty, `.` or `..` segment, no leading or trailing slash and no backslash, as told on its text |
| `ProposalPaths.NormalizeIsExact` | tools/action_proposal/validate_supervised_action_proposal.py:164-182 | for every text, accepted exactly if, stripped and with slashes for backslashes, it is neither empty, rooted nor a drive and consists of some `./` and a normal path or `.`, which is the answer |
| `ProposalPaths.AcceptedIsNormal` | tools/action_proposal/validate_supervised_action_proposal.py:178-182 | an accepted path never leaves the repository: no segment is empty, `.` or `..` |
| `ProposalPaths.NormalIsAccepted` | tools/action_proposal/validate_supervised_action_proposal.py:164-182 | a normal path without outer white space is accepted as it is, unless it looks like a drive |
| `ProposalPaths.NormalizeTwiceIff` | tools/action_proposal/validate_supervised_action_proposal.py:168-182 | normalising an accepted path again changes nothing if and only if stripping `./` uncovered neither a space nor a drive |
| `ProposalPaths.NormalizeIsNotIdempotent` | tools/action_proposal/validate_supervised_action_proposal.py:168-173 | a drive behind `./` is accepted once and refused the second time |
| `ProposalPaths.DriveIsPlain` | tools/action_proposal/validate_supervised_action_proposal.py:168-173 | "C:/x" behind `./` is such a path |
| `ProposalEvidence.ValidateEvidence` | tools/action_proposal/validate_supervised_action_proposal.py:576-767 | adds no blocker exactly when items, sources and requirements are in order |
| `ProposalEvidence.EvidenceIsABijection` | tools/action_proposal/validate_supervised_action_proposal.py:576-767 | an accepted bundle pairs items and requirements one to one with matching text |
| `ProposalValidator.CheckPaths` | tools/action_proposal/validate_supervised_action_proposal.py:1431-1483 | adds no blocker exactly for a non-empty list of distinct, relative, admitted paths |
| `ProposalValidator.ApprovalMap` | tools/action_proposal/validate_supervised_action_proposal.py:391-404 | the last well-formed entry of each operation |
| `ProposalValidator.ValidateApprovals` | tools/action_proposal/validate_supervised_action_proposal.py:830-951 | adds no blocker exactly when the declarations are in order |
| `ProposalValidator.DeclarationsAreTheGates` | tools/action_proposal/validate_supervised_action_proposal.py:830-951 | accepted declarations are exactly the contract's gates on the proposed operations, token by token, sensitive ones included |
| `ProposalValidator.ValidateActions` | tools/action_proposal/validate_supervised_action_proposal.py:1013-1428 | adds no blocker exactly when contract frame and actions are in order, and returns ids, operations, paths and whether state changes |
| `ProposalValidator.TotalIsUnion` | tools/action_proposal/validate_supervised_action_proposal.py:1087-1148 | the collected operations, paths and the state-change flag are those of the actions |
| `ProposalValidator.ValidateReview` | tools/action_proposal/validate_supervised_action_proposal.py:1539-1620 | adds no blocker exactly when the review plan passes its checks |
| `ProposalValidator.ValidateRollback` | tools/action_proposal/validate_supervised_action_proposal.py:1623-1671 | adds no blocker exactly when the rollback mode fits |
| `ProposalValidator.ValidateProposal` | tools/action_proposal/validate_supervised_action_proposal.py:1814-1985 | no blockers exactly for proposals that are in order |
| `ProposalValidator.ReadyMeans` | tools/action_proposal/validate_supervised_action_proposal.py:1935-1985 | ready: one item per requirement, listed paths are the touched paths, risks and review level fit, whatever alters state has a way back |
| `ProposalValidator.ReadyMeansGated` | tools/action_proposal/validate_supervised_action_proposal.py:1975-1980 | ready: an operation is declared exactly when it is used and gated, and every sensitive operation used is declared |
| `ProposalReady.ReadyActions` | tools/action_proposal/validate_supervised_action_proposal.py:1087-1428 | ready: each action names a known, allowed and unblocked operation under the right policy, a risk within the proposal's, admitted paths in normal form, evidence of the bundle, and its approval flag where sensitive or gated |
| `ProposalReady.ReadyIdsDiffer` | tools/action_proposal/validate_supervised_action_proposal.py:1100-1130 | ready: no two actions share an id |
| `ProposalReady.ReadyReview` | tools/action_proposal/validate_supervised_action_proposal.py:1539-1620 | ready: a required review with reviewers, not below the contract's level, strict for high and critical for critical risk |
| `ProposalReady.ReadyRollback` | tools/action_proposal/validate_supervised_action_proposal.py:1623-1671 | ready: what alters state can be undone by hand or by commands, and a plan that is not required lists no commands |
| `ProposalReady.ReadyPathsAreNormal` | tools/action_proposal/validate_supervised_action_proposal.py:1431-1483 | ready: listed paths are in normal form, admitted and different |
| `ProposalReady.ReadyApprovals` | tools/action_proposal/validate_supervised_action_proposal.py:830-951 | ready: each declared approval has a well-formed token, the contract's, and a reason |
| `ProposalReady.ReadyEvidence` | tools/action_proposal/validate_supervised_action_proposal.py:576-767 | ready: each item is satisfied and each of its sources is a file of the repository under a normal path with the stated SHA-256 |
| `ProposalValidator.ReadyProposalExists` | tools/action_proposal/validate_supervised_action_proposal.py:1814-1985 | the conditions of readiness can be met |
| `ProposalValidator.ReviewAloneMissesRisk` | tools/action_proposal/validate_supervised_action_proposal.py:1574-1610 | a critical proposal that the review check alone lets through with a standard review |
| `ProposalValidator.ReviewFitsRiskIffRule` | tools/action_proposal/validate_supervised_action_proposal.py:1574-1610 | the review check accepts only levels that fit the risk if and only if the contract has a review rule |

## Left out

- Subprocesses, Git, Ollama, printing and argument parsing: a dispatch is an arbitrary outcome, external results are parameters.
- SHA-256, JSON text, `difflib` and `fnmatch`: functions with the stated assumptions; a file is missing, malformed, of another schema or a document, and display fields are one opaque text.
- Timestamps are parameters; the retry loop and timeout of the queue lock are the possibility that an operation does not begin.
- The audit, patch, Teachback and closure tools: what they hand back is a parameter; nobody edits the plan file between the digest check and the patch tool's own read.
- Several consoles at once on one workspace: the session theorems are about one console at a time (with restarts); the queue theorems cover any number of processes.
- What console commands do (they touch no mission file, and lines that are commands or empty are passed over); the phrase that creates a private village is treated like any other line.
- The interpretation of a request: a proposal is any charter and decision that pass construction; what rejecting a charter does to the continuity store is not part of this model.
- Error texts and the mapping from error codes to console status codes; a refused authority check in queue and session carries one code.
- A queue file of an old schema is unreadable in the model, where the code still shows it read-only.
- The queue write and the release of the lease of a blocked action are one step; the unlock after it is its own.
- The model grant of an audit, private memory, continuity and village stores, uninstall, the beta runtime, gates, consoles and registries: mostly field checks that would add easy members.
- The 1.0 flow (`make_action`, `build_charter`, `select_provider_and_model`), superseded by 1.1.
- ProposalValidator.ValidateProposal: leaves out checks of texts, authority flags, acceptance links, command tokens and working directories; they only add blockers, so what an empty list implies here it implies in the program.
- ProposalEvidence.ValidateEvidence: leaves out the authority flags, identities, unresolved items, claims and findings of contract and bundle; each only adds blockers.
- ProposalValidator.ValidateActions: leaves out texts, acceptance links, command tokens and working directories, which only add blockers; a path's admission by the contract (private prefixes and glob patterns) is a parameter.
- ProposalValidator.ValidateRollback: leaves out the lists, texts, command tokens and authority flags of the plan, which only add blockers.
- Text.Strip: knows the ASCII white space only.
- Upgrade.ParseShow: digits are ASCII digits.
