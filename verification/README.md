# Verification of the factory coordinator's protocols

This project models, in Dafny, the parts of the coordinator whose correctness
rests on an argument rather than on a single function, and proves that argument
for every input, every run and every interruption.

## What is modelled

**The durable effect journal** (every file not named further below). Each change
of an external system is reserved in a journal slot, applied, and cleared; after
a crash the pending effect is replayed. `EffectWorld` holds the world of one
run: the stored run and invocations, the slot, labels, comments by marker, pull
requests by branch pair, the remote branch, commit statuses, the worktree and
the worker. A process has a budget of writes. When the budget is spent the
process stops before its next write, so one number stands for a crash between
any two writes, a write that fails, and a write whose response is lost.
A tally counts what cannot be undone: sessions, exits, comments and pull
requests that were created. Each handler has a specification on values in its
own module; `process.dfy` and `effect_handlers.dfy` hold the coordinator as
classes whose methods proceed step by step as the source does and are proved to
leave exactly the specified world. The main theorems are in
`effect_journal.dfy`, `effect_results.dfy`, `effect_history.dfy`,
`replay_laws.dfy`, `repeated_replay.dfy` and `accepted_report.dfy`;
`failing_inputs.dfy` holds a concrete input for each way in which the journal or
a body merge falls short.

**The plan resolver** (`azure_planning.dfy`, `plan_resolution.dfy`,
`plan_resolver.dfy`, `plan_properties.dfy`). A plan is placed on ranked levels;
a parent link that skips a required level passes through one shared
intermediate item per parent and level. The resolver's loops over its maps are
proved against a closed form, and the forest laws are proved about that form.

**The headless helper** (`bounded_output.dfy`, `headless_protocol.dfy`). The
capture writer that keeps the head and the tail of a stream, and the launch,
cancel and inspect helpers as a state machine with one step per file access.

**Defect reports, pull request bodies, identities** (`bug_report.dfy`,
`pull_request_body.dfy`, `event_text.dfy`). The record around an issue creation
whose answer may be lost, the replacement of marked sections, and the identities
that sort by creation time and read back. `common.dfy` holds what several of
these modules share.

## Assumptions

- The store keeps one pending effect per run, saves a run or an invocation in
  one write, and refuses a second effect with another identity
  (`internal/factory/claim.go:484-488`). Effect identities, which the source
  hashes, are modelled by the tuple that is hashed.
- One coordinator works on a run. The crash laws say nothing about edits that
  others make between the attempts; the safety of histories allows them, as long
  as comments keep their markers, pull requests keep their branches, and neither
  is deleted. A lookup sees every earlier creation; only the search for a defect
  report may miss one.
- The next revision of a run is above its previous one, except for the accepted
  results of the test and review stages, which keep it and which `SameRevisions`
  and `AcceptedReports` are about.
- The status comment is a function of the run's content that carries the run's
  marker.
- The coordinator has a Git workspace; without one a status replay does not push
  (`internal/effect/commit_status.go:123-126`).
- A workspace may be unable to read the remote branch and a status publisher may
  be unable to list statuses; both are adapter flags, and a member that needs
  one of the two asks for it.
- A write that the process has issued has either happened or not when the next
  process starts; it does not arrive later.
- Plan node identities are unique, as `internal/store/ideation_plans.go:312-330`
  demands of every stored plan.
- Process identities are not reused, and a child that has exited is reaped.

## What the proofs show about the code

- A review result is accepted without a new revision, and a replay does not save
  a run whose revision is stored already: it returns the run, and both callers go
  on with it and save it at the next revision
  (`internal/factory/recovery.go:1096-1110`,
  `internal/factory/report_acceptance.go:266-303`). Therefore one crash loses
  no findings (`AcceptedReports.OneCrashKeepsReport`). Two can: one before the
  acceptance has stored the run, and one between the acknowledgement of a replay
  and the reservation of what follows. Then nothing pending knows the findings, and
  the stored run is the one from before the review
  (`AcceptedReports.ReportLostIff`, `FailingInputs.ReviewInterruptedTwice`). A
  partitioned review is completed from its unit results even so
  (`internal/factory/review_units.go:650-725`); any other needs its retained report
  to be submitted again (`internal/factory/report_acceptance.go:289-303`).
- A transition that saves the run before its effects neither records a comment
  identity nor discards results when nothing interrupts it; cut right after its
  reservation, its replay does both (`StateTransitions.ConvergesIff` says exactly
  when the two ends differ). Two callers save first. Neither discards, and the
  retry recovers a missing identity beforehand
  (`internal/factory/command.go:1381-1387`); the repair at
  `internal/factory/command.go:484-491` does not, and
  `FailingInputs.RepairWithoutComment` is its input.
- With a store that has no transaction, a cut between the save and the discarding
  keeps superseded results for good (`FailingInputs.DiscardInTwoSteps`). The
  repository's own store has the transaction
  (`internal/store/store.go:2407-2415`), so this concerns other stores only.
- A checkpoint of selected paths beside other changes cannot be replayed once
  its commit exists: the leftover changes make every replay refuse
  (`Checkpoints.ReplayResumesIff`, `FailingInputs.ScopedCommit`). The checkpoint
  of a revised test is one: it takes the new test paths alone, while the
  implementation work that raised the objection, if there is any, is still
  uncommitted (`internal/factory/test_stage.go:1033-1052`, with the paths of lines 516-543).
  The other two callers are safe: they take every changed path
  (`internal/factory/test_stage.go:859-866`, `internal/factory/draft_pr.go:146-151`).
- Accepting the same report again, instead of replaying it, delivers the native
  exit twice (`ResultAcceptances.AcceptingAgainFinishesAgain`,
  `FailingInputs.AcceptedAgain`). Its one caller
  (`internal/factory/report_acceptance.go:742`) does not do so: an invocation that
  is no longer active is sent to the recovery of its acceptance
  (`internal/factory/report_acceptance.go:200-202`), and the coordinator replays
  what is pending before it does anything else
  (`internal/factory/claim.go:489-507`).
- A native resume whose copy of the invocation does not cover the sessions
  started so far starts one beyond the stored counter
  (`HarnessResumes.AdmittedResumeKeepsIff`, `FailingInputs.StaleResume`). It
  trusts its callers (`internal/factory/invocation_lifecycle.go:1658-1663`,
  `internal/factory/repair.go:736`) to have read the invocation.
- A recorded cancellation can be replaced on two paths. An inspection that
  overlaps the cancel writes what it saw, and a later inspection then reports the
  process as lost. And a launch that looks for the cancellation marker just before
  it is set records the exit after the cancel has reported success. Nothing else
  replaces it (`HeadlessProtocol.OutcomeStaysIff`,
  `HeadlessProtocol.CancelledReportedLost`,
  `HeadlessProtocol.LaunchOverwritesRecord`).
- A pull request body whose first end marker stands before its first start marker
  gains another section on every merge. A body with a start marker and no end
  marker gains one on the first merge and loses everything from the stray marker
  on at the second; from then on merges replace
  (`PullRequestBodies.LastMergeCountsIff`, `PullRequestBodies.UnmergeableMerge`,
  `FailingInputs.StrayMarkers`). Anybody who edits the body can leave such a
  marker. The review section behaves alike
  (`PullRequestBodies.UnmergeableReview`, `FailingInputs.StrayReviewMarkers`).
- The check of a level mapping for types that differ in letter case alone finds
  nothing that the check of the slugs does not (`AzurePlanning.ValidIff`).

## Model

| member | source | states |
|---|---|---|
| EffectJournal.CrashConvergence | internal/effect/effect.go:194-209 | An operation of any journaled kind except the native resume, interrupted before, inside or after any of its writes, then recovered any number of times, each recovery interrupted anywhere, then recovered once fully, ends in the same labels, comments, pull requests, remote, statuses, results and run as an uninterrupted operation, with the journal slot free; interrupted before its reservation it has changed nothing |
| EffectResults.CrashedOperationAchieves | internal/effect/effect.go:194-209 | What each operation has achieved once it is through, kind by kind, and that it has achieved the same after any interruption followed by recoveries of which one gets through |
| EffectResults.TransitAchieves | internal/effect/state_transition.go:30-82 | After a transition the issue carries the labels of the new status, its comment shows the new run under the recorded identity and every other comment is as before, and the run is stored with that identity; all workers are stopped when asked for and kept otherwise. An invalidation of everything leaves no result; any other invalidation leaves the baseline results and no others; both supersede every stored invocation without changing it otherwise and leave no unit result; without an invalidation all of these are as before. Nothing else has changed and nothing is pending |
| EffectResults.DiscardsWithRun | internal/effect/state_transition.go:90-122 | With the transaction, at every point of a transition that is interrupted and restarted at will: either run, results, invocations and unit results are as before, or the run is at the new revision and results, invocations and unit results are what the two invalidation flags ask for, the baseline kept by a plain invalidation and gone after a full one |
| EffectResults.CheckpointAchieves | internal/effect/checkpoint.go:34-95 | After a checkpoint the worktree is clean at a commit with the checkpoint marker, at most one commit further, and the shown and stored run records this commit as its checkpoint, as its test checkpoint too exactly when it is one of tests, and no accepted one; nothing else has changed |
| EffectResults.PullRequestAchieves | internal/effect/pull_request.go:81-119 | After an upsert the first pull request of the branch pair is the requested one, the others are as before, and the stored and shown run records its number and its URL; nothing else has changed |
| EffectResults.AcceptanceAchieves | internal/effect/result_acceptance.go:60-162 | After an acceptance the invocation is stored with its outcome and no other has changed, the named worker, or the run's own when none is named, is stopped exactly when asked for, the unit result is kept, and the next run is shown and stored; nothing else has changed |
| EffectResults.CommandAchieves | internal/effect/status_comment.go:30-70 | After a command projection the run carries the command, saved unless the stored one was at its revision already; the first comment with the run's marker has its text and no other comment has changed; nothing else has changed |
| EffectResults.UpdateAchieves | internal/effect/pull_request.go:122-132 | After an update the first pull request of the branch pair, under the expected number if there is one, is the requested one; no other and nothing else has changed |
| EffectResults.AskAchieves | internal/effect/clarification.go:33-63 | After a clarification the first comment with its marker, on the issue or on the pull request as asked, holds the question, the run records its identity, and nothing else has changed |
| EffectResults.StatusAchieves | internal/effect/commit_status.go:42-62 | After a publication the status is listed, at most once more than before, and nothing else has changed |
| EffectResults.PushAchieves | internal/effect/push.go:31-43 | After a push the remote branch is the expected commit, or the local head when none is expected; no other branch and nothing else has changed |
| EffectResults.ConclusionShows | internal/effect/issue_projection.go:23-83 | Labels, comment, run and slot after the common end of all run-advancing effects |
| EffectWorld.SlotHoldsOneIntent | internal/effect/effect.go:150-175 | Over a pending effect, a reservation and an acknowledgement are refused exactly when they are not of the same run, kind and distinguishing fields, which are spelled out for each kind; then nothing changes |
| EffectWorld.SavesAtRevisionIff | internal/store/store.go:2424-2454 | A save at a revision, with or without discarding, goes through exactly when the stored run is the same one at the expected revision and the new revision is higher |
| EffectWorld.CreationsCounted | internal/effect/issue_projection.go:60-69 | The tally behind the safety theorems counts every comment under its thread and marker, every pull request under its branch pair, and every session and exit under its invocation, exactly when they happen |
| EffectJournal.RecoveryConverges | internal/factory/claim.go:489-507 | Starting from any pending effect whose preconditions hold, interrupted recoveries followed by one full recovery reach the world of one uninterrupted replay and free the slot |
| EffectJournal.ReplayResumes | internal/effect/effect.go:108-115 | Whatever the kind of the pending effect, an interrupted replay keeps the reservation and leaves a world from which the next replay completes to the same end |
| EffectJournal.PerformIsReplay | internal/effect/effect.go:194-209 | Reserving and applying is the same as reserving and replaying, for every kind but a transition that persists first |
| EffectJournal.PersistFirstConvergence | internal/effect/state_transition.go:45-82 | Crash convergence for transitions that save the run before the effects, in the cases where nothing is lost |
| EffectHistory.HistorySafety | internal/effect/harness_resume.go:47-124 | In every history of operations, crashes, replays, abandoned reservations and events outside the journal (comments, edits, labels, pull requests, pushes, agent work, new invocations, saved runs), at every point: native sessions started for an invocation, automatic and manual, never exceed its stored counters; no reservation starts two sessions; each status or clarification marker is posted at most once; each branch pair gets at most one pull request; no two commit statuses agree in every semantic field |
| EffectHistory.HistoryKeeps | internal/effect/effect.go:194-209 | The inductive invariant behind the safety theorem holds after every event of every history |
| EffectHistory.PerformKeeps | internal/effect/effect.go:194-209 | One operation of any kind, cut anywhere, keeps that invariant |
| EffectHistory.RestartKeeps | internal/effect/effect.go:108-115 | One replay of whatever is pending, cut anywhere, keeps that invariant |
| EffectHistory.OutsideKeeps | internal/effect/issue_projection.go:45-82 | Whatever happens outside the journal, that invariant is kept, as long as comments keep their markers and pull requests their branches and an invocation keeps its counts |
| EffectHistory.OutsideReaches | internal/effect/issue_projection.go:45-82 | The outside events can turn a world into any other with the same slot and statuses, so nothing is assumed about it beyond what their order demands |
| ReplayLaws.RestartMovesForward | internal/effect/state_transition.go:172-190 | A replay whose payload is older than the stored run, skips a revision or belongs to another run fails before any write in the state-transition, checkpoint, pull-request and acceptance kinds; a replay moves the stored run by exactly its reserved step or not at all, and no replay of any kind lowers the revision |
| ReplayLaws.GuardedMoves | internal/effect/checkpoint.go:119-129 | The revision guard: a stale payload is refused as it stands, any other moves the run to the reserved revision or leaves it |
| RepeatedReplays.RepeatedReplayIsQuiet | internal/effect/projection.go:93-102 | For every kind but the native resume: replaying an effect that completed but was not cleared changes nothing but the slot; it issues the acknowledgement, the repeated worker stop, unit result and clarification identity, at most one outside write, and no save of a projected run; and it touches neither tracker nor code host nor any session exactly when the recorded status comment is the first one that carries the marker, for a push when a commit is expected and the remote can be read, and for a status of the own checkpoint when the remote can be read; all other kinds are always silent |
| RepeatedReplays.PushRepeats | internal/effect/push.go:47-71 | A completed push is made again exactly when no commit is expected or the remote cannot be read |
| StateTransitions.ConvergesIff | internal/effect/state_transition.go:30-122 | One interrupted transition and one replay reach the uninterrupted result for every cut if and only if no identity and no invalidation can be lost: the run is saved behind the effects in one transaction, or there is nothing to invalidate and, when it is saved first, it already records its comment |
| StateTransitions.ReplayResumes | internal/effect/state_transition.go:151-220 | A replay interrupted anywhere is completed by the next one to the same world, discarded results included |
| StateTransitions.Reaches | internal/effect/state_transition.go:151-220 | Where a replay ends, and the only worlds an interrupted one can leave: before the stop, after it, after the labels, after the comment, after the save |
| StateTransitions.ApplyIsReplay | internal/effect/state_transition.go:30-82 | A transition that does not persist first is a replay of its own reservation |
| StateTransitions.PersistFirstDiverges | internal/effect/state_transition.go:45-82 | Saving the run first: a cut right after the reservation makes the replay record an identity or discard results that the uninterrupted apply would not |
| StateTransitions.TwoStepDiverges | internal/effect/state_transition.go:100-122 | Without the store transaction: a cut between saving and discarding leaves the superseded results for good |
| StateTransitions.CutBetweenTheTwoSteps | internal/effect/state_transition.go:100-122 | The world such a cut leaves: labels, comment and run are those of the new revision and nothing has been discarded |
| StateTransitions.UncutSeamless | internal/effect/state_transition.go:90-122 | Uninterrupted, the two-step persistence does what the transaction does |
| StateTransitions.PairedIff | internal/effect/state_transition.go:90-122 | At every cut of an apply, results, invocations and unit results are those of before beside the old run and those that the two invalidation flags ask for beside the new one, if and only if nothing is to be discarded, or the store has the transaction and the run is not saved first |
| StateTransitions.ScopeDiscards | internal/effect/state_transition.go:125-146 | The flags decide what goes: a full invalidation the baseline too, a plain one all but the baseline; either supersedes all invocations and drops all unit results; no flag keeps everything |
| FailingInputs.RepairWithoutComment | internal/factory/command.go:484-491 | A repair of a run without a recorded comment identity whose one-cut recovery ends elsewhere than the uninterrupted repair |
| FailingInputs.DiscardInTwoSteps | internal/effect/state_transition.go:100-122 | A refresh without the transaction whose one-cut recovery keeps a superseded result |
| RunProjection.ConclusionLands | internal/effect/state_transition.go:191-220 | Labels, comment, save and acknowledgement: a conclusion either ends in the concluded world or stops after one of these steps, with no other world possible |
| RunProjection.ConclusionResumes | internal/effect/state_transition.go:191-220 | Concluding again from any of those worlds gives the concluded world, even though the second attempt may meet and adopt the identity the first one saved |
| RunProjection.ConclusionFrame | internal/effect/issue_projection.go:23-83 | A conclusion that keeps results touches labels, comments, run and slot only, and moves the run to the reserved revision or not at all |
| RunProjection.SpentConcludes | internal/effect/issue_projection.go:23-83 | A conclusion that cannot write leaves the world as it is |
| RunProjection.AdoptedIdentity | internal/effect/state_transition.go:191-205 | Which comment a replay shows a run under: the one stored at its revision since the reservation, else that of the payload, else the marked one; everything else of the run is the payload |
| IssueProjection.CommentSettles | internal/effect/issue_projection.go:45-82 | After one projection the marked comment shows the run, its identity is found again, and a second projection, with or without the recorded identity, has nothing left to do |
| IssueProjection.FoundAfterPost | internal/effect/issue_projection.go:45-69 | A comment that was created because no marker was found is the one found afterwards |
| IssueProjection.FoundAfterEdit | internal/effect/issue_projection.go:45-82 | An edited comment is found unless an earlier one carries the marker |
| IssueProjection.SameIdentity | internal/effect/issue_projection.go:45-82 | Which comment a run edits depends on its identity and recorded comment alone |
| IssueProjection.CommentGoes | internal/effect/issue_projection.go:45-82 | Which comment a projection writes: a creation posts one unless the marker is there and then edits the first marked one; otherwise the recorded comment is edited, or the first marked one when none is recorded |
| IssueProjection.CommentRefusedIff | internal/effect/issue_projection.go:70-82 | It is refused exactly when it may not create and there is neither a recorded nor a marked comment, or the recorded one does not exist |
| Labels.LastStateWins | internal/factory/claim.go:1130-1147 | Projecting two states one behind the other is projecting the second |
| Labels.StateLabelsIdempotent | internal/factory/claim.go:1130-1147 | Projecting a status again changes nothing |
| Labels.OneFactoryLabel | internal/factory/claim.go:1130-1147 | Exactly one factory label is left, at the end, and no ordinary label is lost, invented or repeated |
| Labels.OrderPreserved | internal/factory/claim.go:1130-1147 | Ordinary labels keep the order in which the issue first shows them |
| Labels.StatusNames | internal/factory/claim.go:93-100 | The last label after a projection tells the status: needs-input exactly when waiting for a human, failed, cancelled and complete exactly for these, running for active, waiting for a harness and anything unknown; the labels before it are ordinary |
| Labels.ReplaceFactoryState | internal/factory/claim.go:1130-1147 | The loop over labels and the set of seen ones yields the ordinary labels once each followed by the state |
| StatusComments.CompletesIff | internal/effect/status_comment.go:75-120 | A full replay completes exactly when the stored run is where the command started or already carries the same command, and the recorded comment can be edited without touching another marked one |
| StatusComments.ReplayResumes | internal/effect/status_comment.go:75-120 | An interrupted replay is completed by the next one |
| StatusComments.Reaches | internal/effect/status_comment.go:75-120 | The worlds an interrupted replay can leave: before the watermark, before the edit, before the acknowledgement |
| StatusComments.PersistIsReplay | internal/effect/status_comment.go:30-70 | Persisting a command is replaying its reservation |
| StatusComments.WatermarkIff | internal/effect/status_comment.go:96-109 | The watermark step is refused exactly when the stored run is neither at the start nor of the same command |
| StatusComments.EditIff | internal/effect/issue_projection.go:88-113 | The comment step is refused exactly when no comment is recorded or a different one carries the marker with another text |
| Checkpoints.ReplayResumesIff | internal/effect/checkpoint.go:99-165 | A checkpoint effect survives every interruption if and only if its commit takes all changes with it; a scoped commit beside other changes does not |
| Checkpoints.LeftoverBlocks | internal/effect/checkpoint.go:99-165 | The cut that blocks it: right after the commit, every later replay meets the leftover changes and refuses |
| FailingInputs.ScopedCommit | internal/factory/test_stage.go:1045-1052 | A checkpoint of a revised test beside uncommitted work that no replay completes after a cut |
| Checkpoints.ReplayResumes | internal/effect/checkpoint.go:99-165 | A checkpoint whose commit leaves the worktree clean resumes wherever it is cut, without a second commit |
| Checkpoints.CommitIsReplay | internal/effect/checkpoint.go:34-95 | Committing is replaying its reservation |
| PullRequests.UpsertSettles | internal/effect/pull_request.go:27-62 | An upsert leaves the request under one number, that number is found again for the branch pair, and a second upsert has nothing left to do |
| PullRequests.AttachesOnlyToExpected | internal/effect/pull_request.go:27-62 | With an expected number an upsert rewrites that pull request of the branch pair or none |
| PullRequests.ReplayResumes | internal/effect/pull_request.go:137-205 | An interrupted upsert with its run projection is completed by the next replay |
| PullRequests.UpdateResumes | internal/effect/pull_request.go:137-205 | So is a body update without a run projection |
| PullRequests.UpsertIsReplay | internal/effect/pull_request.go:81-119 | Upserting is replaying its reservation |
| ResultAcceptances.AcceptanceSafety | internal/effect/result_acceptance.go:60-271 | One acceptance of an active invocation followed by any replays, all cut anywhere: the native exit is delivered at most once, and the run is never stored at the next revision while its invocation is active or, when asked for, before the worker is stopped |
| ResultAcceptances.AcceptingAgainFinishesAgain | internal/effect/result_acceptance.go:95-157 | Accepting the same report again instead of replaying it delivers the exit a second time exactly when the first attempt got as far as the delivery |
| FailingInputs.AcceptedAgain | internal/effect/result_acceptance.go:95-157 | A report whose second acceptance delivers a second exit |
| ResultAcceptances.ReplayResumes | internal/effect/result_acceptance.go:168-271 | An interrupted replay of an acceptance is completed by the next one |
| ResultAcceptances.AcceptIsReplay | internal/effect/result_acceptance.go:60-162 | Accepting a live invocation is replaying its reservation |
| ResultAcceptances.FrontSettles | internal/effect/result_acceptance.go:206-249 | Once invocation, exit, worker and unit result are behind, repeating them changes nothing |
| ResultAcceptances.ReportTakenIff | internal/effect/result_acceptance.go:95-157 | A report is taken exactly when its invocation is stored and active, or stored with the outcome and session of the report; otherwise an accept stops behind its reservation and a replay changes nothing |
| ResultAcceptances.ReplayKeepsStep | internal/effect/result_acceptance.go:168-271 | Every replay, cut anywhere, keeps the order of exit, worker stop and run, and delivers nothing twice |
| SameRevisions.ConvergesIff | internal/effect/result_acceptance.go:168-271 | The journal's part of an acceptance that keeps the revision: a replay alone, without what its caller goes on to do, reaches the uninterrupted acceptance for every cut if and only if the stored run is already the one the acceptance saves |
| SameRevisions.ReplayLeavesRun | internal/effect/result_acceptance.go:254-270 | When it is not, a cut right after the reservation makes the replay complete and leave the stored run as it was |
| SameRevisions.AcceptReaches | internal/effect/result_acceptance.go:60-162 | Where such an acceptance ends and the only worlds an interrupted one can leave |
| SameRevisions.ExitAtMostOnce | internal/effect/result_acceptance.go:60-271 | Whatever the revisions, one acceptance of an active invocation followed by any replays, all cut anywhere, delivers the native exit at most once |
| AcceptedReports.ReviewConvergesIff | internal/factory/recovery.go:1042-1110 | An accepted review with what follows it, cut anywhere behind its reservation, then recoveries cut anywhere, then one that is not: the world of an uninterrupted review, with the projected content at the next revision, if and only if no process ended between an acknowledgement and the reservation of the continuation; otherwise the stored run is the accepted one, or what the first process had stored |
| AcceptedReports.OneCrashKeepsReport | internal/factory/recovery.go:1096-1110 | One crash anywhere behind the reservation and one recovery: the accepted content is stored, and projected at the next revision unless the first process had just acknowledged the acceptance |
| AcceptedReports.ReportLostIff | internal/factory/report_acceptance.go:266-303 | The run from before the review is what stays stored exactly when the first process ended before it stored the accepted one and a recovery ended between the acknowledgement of its replay and the reservation of the continuation; the ended invocation and the unit result are stored even then |
| AcceptedReports.AcceptLeavesPending | internal/effect/result_acceptance.go:168-271 | Wherever an acceptance over the stored run is cut behind its reservation, a replay returns the run that the acceptance would have returned and ends in its world but for the stored run |
| AcceptedReports.ContinueSteps | internal/factory/review.go:678-683 | The continuation, cut anywhere, has not reserved its transition and touched the statuses alone, or leaves a reservation whose replay ends where the uninterrupted continuation ends |
| FailingInputs.ReviewInterruptedTwice | internal/factory/recovery.go:1096-1110 | A review with findings that is interrupted right behind its reservation and again right behind the acknowledgement of its replay, after which nothing is pending and the stored run is the one from before |
| HarnessResumes.ResumeKeeps | internal/effect/harness_resume.go:47-185 | A resume called with the stored counters, automatic or manual, admitted or refused, cut anywhere, keeps every session within a stored counter |
| HarnessResumes.ReplayKeeps | internal/effect/harness_resume.go:221-301 | So does a replay, whatever the interrupted attempt started |
| HarnessResumes.AdmittedResumeKeepsIff | internal/effect/harness_resume.go:47-124 | An admitted resume keeps the account exactly when the copy of the invocation it was called with covers everything started and reserved so far; a stale copy does not |
| FailingInputs.StaleResume | internal/effect/harness_resume.go:47-124 | A resume with an old copy that starts one session more than the stored count |
| HarnessResumes.ResumeRecovers | internal/effect/harness_resume.go:47-301 | A resume cut anywhere, restarts cut anywhere and one that is not, whatever the runtime answers each time: the slot is free, no other invocation and nothing else has changed, the count is the original or the reserved one, and at most one session was started in all, none while the count is the original one |
| HarnessResumes.ReplayCompletes | internal/effect/harness_resume.go:221-301 | One uncut replay of a pending resume whose invocation is stored gets through and frees the slot; it starts a session exactly when the runtime admits one and the count is below the target, and only then does the count move, to the target |
| HarnessResumes.ResumeRecords | internal/effect/harness_resume.go:47-185 | A resume that gets through, automatic or manual, stores the session of an admission, or the old one when it has no name, under the next count of its kind, and changes nothing else of the invocation; after a refusal the invocation is as before |
| HarnessResumes.ReplayRecords | internal/effect/harness_resume.go:221-301 | And so does a replay over the stored invocation whose count is below the target; any other leaves the invocations alone |
| HarnessResumes.CrossingAccounted | internal/effect/harness_resume.go:80-124 | Counter first, then the native start, then the session or the rollback: no cut and no answer of the runtime breaks the account |
| Clarifications.ReplayResumes | internal/effect/clarification.go:168-201 | A question interrupted anywhere is completed by the next replay with one comment and its identity on the run |
| Clarifications.PublishIsReplay | internal/effect/clarification.go:33-63 | Publishing over a current copy of the run is replaying the reservation |
| Clarifications.AskedSettles | internal/effect/clarification.go:68-94 | The question is found after it was asked, and asking again changes nothing |
| CommitStatuses.ReplayPublishesAfterCommit | internal/effect/commit_status.go:67-132 | With a commit that is the one the stored run records as its checkpoint and a branch that is not blank, a replay changes the statuses only when the remote branch is at that commit, and pushes only a local head that is that commit; for any other commit or without a branch it leaves the remote alone. It adds at most the one status and never one that agrees with an existing one |
| CommitStatuses.PublishKeepsDistinct | internal/effect/commit_status.go:42-62 | The first publication adds at most its status; it keeps statuses distinct if and only if the publisher can list them, the status is new, or the write did not happen |
| CommitStatuses.PushLands | internal/effect/push.go:47-71 | A push leaves the remote at the expected commit or does nothing; a head that is another commit is never pushed |
| CommitStatuses.PushResumes | internal/effect/push.go:75-96 | An interrupted push is completed by the next replay |
| CommitStatuses.StatusResumes | internal/effect/commit_status.go:67-114 | An interrupted status publication is completed by the next replay |
| EffectHandlers.SameStringSlice | internal/effect/projection.go:119-129 | True exactly for equal ordered lists |
| EffectHandlers.ListsStatus | internal/effect/commit_status.go:50-58 | True exactly when a listed status agrees in every semantic field |
| EffectHandlers.Coordinator.SyncLabels | internal/effect/issue_projection.go:23-44 | Writes the projected labels unless the issue shows them already |
| EffectHandlers.Coordinator.SyncComment | internal/effect/issue_projection.go:45-82 | Observes the marked comment, then keeps, edits, creates or refuses as the decision says, and returns the run with its comment identity |
| EffectHandlers.Coordinator.ProjectState | internal/effect/issue_projection.go:23-83 | The two steps in order, stopping at the first that fails |
| EffectHandlers.Coordinator.EditStatusComment | internal/effect/issue_projection.go:88-113 | The command edit, refusing a comment that belongs to someone else |
| EffectHandlers.Coordinator.PersistRun | internal/effect/state_transition.go:90-122 | Saves and discards through the transaction where there is one, otherwise in two steps |
| EffectHandlers.Coordinator.ApplyTransition | internal/effect/state_transition.go:30-82 | The closure-by-closure apply leaves exactly the world of the transition specification, cut anywhere |
| EffectHandlers.Coordinator.ReplayTransition | internal/effect/state_transition.go:151-220 | The replay leaves exactly the world of its specification, cut anywhere |
| EffectHandlers.Coordinator.SaveWatermark | internal/effect/status_comment.go:96-109 | The watermark decision with its four outcomes |
| EffectHandlers.Coordinator.PersistCommand | internal/effect/status_comment.go:30-70 | Apply of a command projection against its specification |
| EffectHandlers.Coordinator.ReplayCommand | internal/effect/status_comment.go:75-120 | Replay of a command projection against its specification |
| EffectHandlers.Coordinator.CommitCheckpoint | internal/effect/checkpoint.go:34-95 | Apply of a checkpoint against its specification |
| EffectHandlers.Coordinator.ReplayCheckpoint | internal/effect/checkpoint.go:99-165 | Replay of a checkpoint against its specification |
| EffectHandlers.Coordinator.UpsertPullRequest | internal/effect/pull_request.go:27-62 | Find by branch pair, check the expected number, rewrite only a difference, else create |
| EffectHandlers.Coordinator.UpsertAndPersist | internal/effect/pull_request.go:81-119 | Apply of a pull request with its run projection against its specification |
| EffectHandlers.Coordinator.UpdatePullRequest | internal/effect/pull_request.go:122-132 | Apply of a pull request update against its specification |
| EffectHandlers.Coordinator.ReplayPullRequest | internal/effect/pull_request.go:137-205 | Replay of a pull request effect against its specification |
| EffectHandlers.Coordinator.AcceptReport | internal/effect/result_acceptance.go:60-162 | Apply of an acceptance against its specification, and the run it returns |
| EffectHandlers.Coordinator.ReplayAcceptance | internal/effect/result_acceptance.go:168-271 | Replay of an acceptance against its specification, and the run it returns, stored or not |
| EffectHandlers.Coordinator.ResumeNative | internal/effect/harness_resume.go:47-185 | Apply of an automatic or manual resume against its specification |
| EffectHandlers.Coordinator.CrossBoundary | internal/effect/harness_resume.go:80-124 | Counter stored before the runtime is asked, rollback when nothing started |
| EffectHandlers.Coordinator.ReplayResume | internal/effect/harness_resume.go:221-324 | Replay of a resume against its specification |
| EffectHandlers.Coordinator.PublishClarification | internal/effect/clarification.go:33-63 | Apply of a clarification against its specification |
| EffectHandlers.Coordinator.ReplayClarification | internal/effect/clarification.go:168-201 | Replay of a clarification against its specification |
| EffectHandlers.Coordinator.PushOnce | internal/effect/push.go:47-71 | Observes the remote, checks the local head, pushes |
| EffectHandlers.Coordinator.PushBranch | internal/effect/push.go:31-43 | Apply of a push against its specification |
| EffectHandlers.Coordinator.CreateCommitStatus | internal/effect/commit_status.go:42-62 | Apply of a status publication against its specification |
| EffectHandlers.Coordinator.ReplayStatus | internal/effect/commit_status.go:67-132 | Replay of a status publication, with the push of the recorded checkpoint before it, against its specification |
| EffectHandlers.Coordinator.ReplayPending | internal/effect/effect.go:108-115 | Dispatches the pending effect to the handler of its kind and leaves exactly the world of the journal specification |
| EffectHandlers.Coordinator.PerformAndRecover | internal/effect/effect.go:194-209 | The crash law of the procedures: an operation performed in a process that ends after any positive number of writes, then restarts that end anywhere, then one that does not, leaves the world of the uninterrupted operation with the slot free and has achieved what the operation is for |
| EffectHandlers.Coordinator.ContinueReview | internal/factory/review.go:678-683 | Publishes the review status and then saves the returned run at the next revision, in this order |
| EffectHandlers.Coordinator.AcceptReview | internal/factory/report_acceptance.go:709-733 | Accepts the report and goes on with the run it was returned |
| EffectHandlers.Coordinator.RecoverReview | internal/factory/recovery.go:1042-1110 | Replays what is pending and goes on with the run that the replay of an accepted review returns |
| BoundedOutput.StreamingIsOneShot | cmd/factory-worker-headless/main.go:612-698 | For every limit and every way of splitting a stream into writes, the published file and the truncated flag are those of bounding the whole stream at once |
| BoundedOutput.RetainedIsBounded | cmd/factory-worker-headless/main.go:612-641 | After every sequence of writes the head and the tail are the two ends of what was written, each within its share of the limit and together all of it or as much as the limit allows; the open file holds the head only |
| BoundedOutput.BoundedLength | cmd/factory-worker-headless/main.go:453-478 | A bounded text is never longer than the limit or the data, is flagged exactly when the data exceed the limit, and then fills the limit |
| BoundedOutput.BoundedText | cmd/factory-worker-headless/main.go:453-478 | A text that does not fit keeps its two ends around the marker, of equal length but for one byte more at the end; where the marker does not fit, its beginning remains |
| BoundedOutput.MarkerSpelled | cmd/factory-worker-headless/main.go:37 | The marker is the constant of the source, byte by byte |
| BoundedOutput.NestedBounding | cmd/factory-worker-headless/main.go:453-478 | Bounding twice is bounding once at the smaller limit, in either order |
| BoundedOutput.InspectionOfCapture | cmd/factory-worker-headless/main.go:270-284 | Inspecting a finished capture reports the stream bounded at the smaller limit, with the flag true exactly when something is missing |
| BoundedOutput.BoundedFileWriter.Write | cmd/factory-worker-headless/main.go:612-641 | The buffer arithmetic of a write against its specification; it always reports having drained everything |
| BoundedOutput.BoundedFileWriter.Publish | cmd/factory-worker-headless/main.go:645-685 | The rewrite of the file from head, marker and tail, once |
| HeadlessProtocol.CancelFirstNeverStarts | cmd/factory-worker-headless/main.go:290-333 | In every interleaving, a cancel that takes the lock before the launch means that the child never starts |
| HeadlessProtocol.SuccessMeansStopped | cmd/factory-worker-headless/main.go:290-333 | In every interleaving, when a cancel has reported success the child is not alive and never will be |
| HeadlessProtocol.EndedMeansStopped | cmd/factory-worker-headless/main.go:107-235 | A launch that has ended, failed or refused leaves no child alive |
| HeadlessProtocol.CrashGuardsIdle | cmd/factory-worker-headless/main.go:195-200 | Without a crashed helper no cancel meets a process without an identity and the launch's last check never finds the cancellation marker |
| HeadlessProtocol.OutcomeStaysIff | cmd/factory-worker-headless/main.go:249-333 | In every reachable state a recorded cancellation is permanent if and only if no inspection that read the directory before it was recorded is still to write and the launch has not just missed the cancellation marker |
| HeadlessProtocol.OutcomeCanBeLost | cmd/factory-worker-headless/main.go:249-285 | A run of the helpers in which such an inspection exists after a successful cancel |
| HeadlessProtocol.CancelledReportedLost | cmd/factory-worker-headless/main.go:249-285 | Its continuation: the inspection writes, and a later one reports the cancelled process as lost |
| HeadlessProtocol.LaunchOverwritesRecord | cmd/factory-worker-headless/main.go:222-228 | A run without any inspection: the launch misses the marker, the cancel succeeds, and the launch then records an ordinary exit |
| HeadlessProtocol.SomeWrites | cmd/factory-worker-headless/main.go:249-285 | Such an inspection replaces the recorded cancellation within three of its own steps |
| HeadlessProtocol.StepKeeps | cmd/factory-worker-headless/main.go:107-333 | The inductive invariant over lock, phases, child and files is kept by every step of every helper and by the child |
| HeadlessProtocol.WinnerStays | cmd/factory-worker-headless/main.go:379-398 | Which side took the lock first never changes |
| HeadlessProtocol.InspectAlone | cmd/factory-worker-headless/main.go:249-285 | An inspection between whose steps nothing comes: a started process whose recorded child is gone becomes lost, a cancelled one that is alive becomes running, anything else stays |
| HeadlessProtocol.CancelAlone | cmd/factory-worker-headless/main.go:290-333 | Such a cancel reserves the cancellation of a process that is not there, leaves a finished one, marks a started one and records it as cancelled once no child is alive, and waits while one is |
| HeadlessProtocol.LaunchAlone | cmd/factory-worker-headless/main.go:107-201 | Such a launch refuses any record but none or lost; otherwise it leaves a running child with its identity and no marker, or the record of an exit when the child does not start |
| HeadlessProtocol.WaitAlone | cmd/factory-worker-headless/main.go:203-228 | And behind the exit of its child it records a cancellation exactly when the marker is set |
| HeadlessProtocol.InterruptedRecords | cmd/factory-worker-headless/main.go:209-228 | An interrupted launch records a cancellation once its child has exited |
| BugReports.AtMostOneIssue | internal/bugreport/submit.go:175-258 | Over every sequence of submissions with crashes, lost answers and searches that miss the issue, while the operator confirms truthfully: at most one issue exists, no issue disappears, and once there is one the record is pending or created |
| BugReports.SecondIssueIff | internal/bugreport/submit.go:210-216 | A submission can make a second issue exactly when the record is pending, an issue exists and the operator confirms that none does |
| BugReports.OneIssueReported | internal/bugreport/submit.go:175-258 | Every submission of a draft that names an issue names the same one, which stays the only one under any further submissions |
| BugReports.SettlesOnceFound | internal/bugreport/submit.go:199-209 | The first undisturbed submission that sees the issue records it, whatever was left behind |
| BugReports.CreatedStays | internal/bugreport/submit.go:195-198 | A recorded issue is final |
| BugReports.Desk.SubmitDraft | internal/bugreport/submit.go:175-234 | The checks in their order and the record around the search leave exactly the specified world and report |
| BugReports.Desk.CreateReport | internal/bugreport/submit.go:239-258 | Pending record, creation, removal or created record, each of which a crash may precede |
| BugReports.Undecided | internal/bugreport/submit.go:217-224 | The loop keeps exactly the candidates that are not declared distinct, each where it stood |
| BugReports.DuplicatesStop | internal/bugreport/submit.go:217-225 | While a candidate is not declared distinct, no submission creates an issue, and an undisturbed one that gets as far as the candidates reports exactly the undeclared ones |
| BugReports.DistinctStopNothing | internal/bugreport/submit.go:217-225 | When all of them are declared distinct, the candidates stop nothing: the submission ends as it would without any |
| BugReports.MakesIssueIff | internal/bugreport/submit.go:175-258 | A submission creates an issue exactly when every check has passed, among them the search, the confirmation after a lost answer, the candidates and the label, when it has written its record, and when the tracker makes one |
| BugReports.RefusedAnswerStops | internal/bugreport/submit.go:199-225 | A search or a candidate list that the adapter cannot give leaves everything as it is and is reported as the kind of failure the adapter names, or as unavailable |
| BugReports.CreationOutcome | internal/bugreport/submit.go:239-258 | What an uninterrupted creation leaves: a created issue is recorded and reported, a definite refusal clears the record, a lost answer keeps it pending |
| AzurePlanning.SlugIsCanonical | internal/config/azure_planning.go:98-108 | Every slug consists of letters and digits with single dashes between them |
| AzurePlanning.CanonicalIsOwnSlug | internal/config/azure_planning.go:98-108 | Every such name is its own slug, so slugs are exactly these names and slugging twice is slugging once |
| AzurePlanning.SlugIsWords | internal/config/azure_planning.go:98-108 | The slug of any name is its words, the runs of ASCII letters and digits in lower case, in order, with one dash between two |
| AzurePlanning.LowerSpells | internal/config/azure_planning.go:98-108 | Which characters count for a slug, and as which letter: ASCII letters and digits, and the two letters outside ASCII whose lower case is in ASCII |
| AzurePlanning.IdentitiesInjective | internal/azuredevops/plan.go:161-162 | An intermediate identity determines its parent and its slug, whatever the parents are called |
| AzurePlanning.Slug | internal/config/azure_planning.go:98-108 | The builder loop computes the slug |
| AzurePlanning.Validate | internal/config/azure_planning.go:57-92 | Accepts exactly the mappings whose levels are well formed, with distinct types, distinct nonempty slugs, no kind mapped twice and at least one kind |
| AzurePlanning.ValidIff | internal/config/azure_planning.go:57-92 | A mapping is valid exactly when its levels are well formed with distinct nonempty slugs, no kind is listed twice and one is listed; the separate check for repeated types finds nothing that the slugs do not |
| AzurePlanning.ValidateLevel | internal/config/azure_planning.go:110-129 | Accepts exactly the levels whose type is nonempty, without space at either end and without control characters, whose kinds are safe, and whose fields are reference names that the adapter does not own in any letter case |
| AzurePlanning.WellFormedIff | internal/config/azure_planning.go:110-142 | Well-formed levels, character by character |
| AzurePlanning.OwnedInAnyCase | internal/config/azure_planning.go:50-53 | A field has the name of an owned one exactly when it spells it in any mixture of letter cases |
| AzurePlanning.SafeKind | internal/config/azure_planning.go:131-142 | Accepts exactly the nonempty kinds of letters, digits, dots, underscores and dashes |
| AzurePlanning.TrimSpaceFixes | internal/config/azure_planning.go:112-121 | Trimming keeps a text exactly when neither end is a space, and leaves something exactly when the text is not blank |
| Spaces.TrimCuts | internal/config/azure_planning.go:112-121 | Trimming cuts white space off both ends and nothing else |
| Spaces.SpacesAre | internal/config/azure_planning.go:112-121 | The white space characters, one by one |
| AzurePlanning.AddKinds | internal/config/azure_planning.go:81-86 | The loop over the kinds of a level finds exactly the repetitions |
| AzurePlanning.OneListing | internal/config/azure_planning.go:81-86 | A valid mapping lists every kind on one level at most, so the last level that lists it is the only one |
| PlanResolution.LevelIsLast | internal/azuredevops/plan.go:98-103 | The level of a kind is the last one whose kinds contain it, and there is none exactly when no level lists it |
| PlanProperties.ResolvesIff | internal/azuredevops/plan.go:97-155 | A plan with unique identities resolves exactly when every kind is listed by some level and every child names a plan item whose kind is on a strictly higher level than its own (the last one that lists it), with a usable identity, parent and slug joined by two dashes, for each required level between them |
| PlanProperties.RefusalNames | internal/azuredevops/plan.go:104-127 | A refusal names the first item whose kind no level lists, or else the first item that does not fit, and why: no such parent, a parent on the same or a lower level, or the first required level between them without a usable identity |
| PlanProperties.ParentIsHigher | internal/azuredevops/plan.go:114-153 | Every parent link ends at an item of the preview on a strictly higher level with no required level strictly between, so the preview is a forest; when every plan item follows its parent, so does every preview item |
| PlanProperties.ClimbReachesParent | internal/azuredevops/plan.go:129-141 | Climbing from a plan item passes one intermediate item per skipped required level and then arrives at the parent its plan names |
| PlanProperties.IdentitiesDistinct | internal/azuredevops/plan.go:161-187 | With a valid mapping no two items of a preview share an identity |
| PlanProperties.InsertedIff | internal/azuredevops/plan.go:130-140 | An item is inserted on a level below a plan item exactly when some child link skips that required level, and only once |
| PlanProperties.InsertedItem | internal/azuredevops/plan.go:161-185 | An inserted item stands on a required level, is called after its parent and the slug of its level, and has the title of its parent and no dependencies |
| PlanProperties.MembersAreDeeperChildren | internal/azuredevops/plan.go:138 | Its members are exactly the deeper children of that plan item, in plan order, and there is at least one |
| PlanProperties.OneParentLinkEach | internal/azuredevops/plan.go:191-204 | The relationships hold exactly one parent link for each item that has a parent, in preview order |
| PlanProperties.LinksAre | internal/azuredevops/plan.go:191-204 | The relationships of one item: its parent link if it has a parent, then one link for each dependency, in the order of the plan |
| PlanProperties.DependenciesKept | internal/azuredevops/plan.go:198-202 | The dependency links of a preview are exactly those of its plan |
| PlanProperties.PlanItemKept | internal/azuredevops/plan.go:143-153 | Every plan item is in the preview with its identity, title and dependencies, on the last level that lists its kind |
| PlanProperties.RootsAreRoots | internal/azuredevops/plan.go:116-118 | An item without a parent link is a plan item without a parent, and the other way round |
| PlanProperties.IntermediateAvoidsPlan | internal/azuredevops/plan.go:174-177 | An inserted identity is never a plan item's and never too long |
| PlanProperties.AboveIs | internal/azuredevops/plan.go:129-141 | What hangs on a level below a plan item hangs from the lowest item above it |
| PlanResolver.Resolver.Resolve | internal/azuredevops/plan.go:97-155 | The three loops over the node and intermediate maps yield exactly the closed-form resolution, or the first problem in the order in which the loops meet it |
| PlanResolver.Resolver.LinkItem | internal/azuredevops/plan.go:114-142 | One round of the second loop: the item is linked, every chain is the closed form over one more item, or the item's first problem is reported |
| PlanResolver.Resolver.IntermediateNode | internal/azuredevops/plan.go:161-187 | Finds or creates the item of a level at its place in the chain; the branch for two levels with one identity is unreachable |
| PlanResolver.Resolver.Place | internal/azuredevops/plan.go:104-112 | Every item is placed on its level, or the first unmapped kind is reported |
| PlanResolver.Resolver.Levels | internal/azuredevops/plan.go:98-103 | The table holds exactly the kinds that some level lists, each with the last such level |
| PlanResolver.Resolver.Render | internal/azuredevops/plan.go:143-154 | Each plan item is followed by the intermediate items below it, with their relationships |
| PlanResolver.Resolver.NodeRelationships | internal/azuredevops/plan.go:191-204 | The parent link and the dependency links of one item |
| PlanResolver.ChainMeets | internal/azuredevops/plan.go:163-171 | A child whose link passes an existing intermediate item becomes its member and changes nothing else |
| PlanResolver.ChainExtends | internal/azuredevops/plan.go:176-186 | A child deeper than all before it appends an item that hangs from the one above |
| PullRequestBodies.LastMergeCountsIff | internal/factory/draft_pr.go:533-544 | Merging twice is merging the second text alone, exactly when the body has no markers or its first end marker follows its first start marker |
| PullRequestBodies.MergeReadsBack | internal/factory/draft_pr.go:533-544 | In these bodies the marked section read back is the generated text, and the text before and after an existing section is unchanged |
| PullRequestBodies.MergeOwnSection | internal/factory/draft_pr.go:533-544 | Merging the section a body already has gives the same body |
| PullRequestBodies.UnmergeableMerge | internal/factory/draft_pr.go:533-544 | In any other body a second merge does not replace the section: behind an end marker in front of the first start marker it appends another, and the body stays that way; a lone start marker costs everything from it on, once, and from then on merges replace |
| FailingInputs.StrayMarkers | internal/factory/draft_pr.go:533-544 | Two bodies with one stray marker each: one gains a section at every merge, the other loses its text at the second |
| PullRequestBodies.LastReviewCountsIff | internal/factory/draft_pr.go:548-559 | The same law for the review section, exactly when it is in order or no review marker stands in front of the place of insertion |
| PullRequestBodies.UnmergeableReview | internal/factory/draft_pr.go:548-559 | The same two outcomes for the review section |
| FailingInputs.StrayReviewMarkers | internal/factory/draft_pr.go:548-559 | Two bodies with one stray review marker each: one gains a review section at every merge, the other loses its text at the second |
| FailingInputs.SomeReviewSection | internal/factory/draft_pr.go:548-559 | A review start marker, any text without an opening bracket and a review end marker are a review section, so the laws of review merges apply to every such text |
| PullRequestBodies.ReviewReadsBack | internal/factory/draft_pr.go:548-559 | The review section read back is the generated one |
| PullRequestBodies.InsertionKeepsAround | internal/factory/draft_pr.go:548-559 | Inserting a first review section leaves the text around the generated section as it is |
| PullRequestBodies.ReplacementKeepsAround | internal/factory/draft_pr.go:548-559 | Replacing a review section inside the generated section does so too |
| PullRequestBodies.IndexJoin | internal/factory/draft_pr.go:20-27 | Occurrences of a marker never cross the border of a marker or a newline, so searching joined texts is searching them one by one |
| EventText.SortsByCreation | internal/azuredevops/text.go:82-100 | For years 0 to 9999, identities of items created at different times sort exactly by year, then month, day, hour, minute, second and nanosecond, whatever the parts |
| EventText.StampLayout | internal/azuredevops/text.go:82-100 | Where the printed time has its four digits of the year, two each of month and day, the T, two each of hour, minute and second, the point, nine of nanoseconds and the Z |
| EventText.PartsReadBack | internal/azuredevops/text.go:104-120 | With distinct one-letter tags a read-back returns a number exactly when it was printed under that tag |
| EventText.FirstTagDecides | internal/azuredevops/text.go:104-120 | In any text, the first segment behind the second that starts with the tag decides; it has to go on with a positive number |
| EventText.AtoiIff | internal/azuredevops/text.go:114 | The numbers read are exactly the decimal texts, with an optional fitting sign and leading zeros, within the width of an int |
| EventText.PrintingReads | internal/azuredevops/text.go:97 | A printed number has a minus sign exactly when negative and no leading zero, and is read as itself |
| EventText.MakeEventID | internal/azuredevops/text.go:93-100 | The builder loop prints the time, laid out as StampLayout says, and the tagged numbers in order |
| EventText.ReadEventIDPart | internal/azuredevops/text.go:104-120 | The scan over segments returns the first tagged positive number |
| EventText.TagsRoundTripIff | internal/azuredevops/text.go:63-76 | Labels survive the tag field exactly when each is trimmed, nonempty and without a semicolon |
| EventText.ReadTags | internal/azuredevops/text.go:63-71 | The loop over the split field keeps the trimmed nonempty tags |
| EventText.KeptIs | internal/azuredevops/text.go:63-71 | A tag is read from any field exactly when it is a trimmed nonempty segment |
| EventText.LessAsymmetric | internal/azuredevops/text.go:78-82 | The text order used for sorting is asymmetric |

## Left out

- EffectJournal.CrashConvergence: does not cover the native resume, whose replay deliberately does not repeat an uncertain start; what that kind guarantees instead is HarnessResumes.ResumeRecovers.
- EffectJournal.CrashConvergence: asks for a publisher that can list statuses, without which a replay refuses, and that a status of the run's own checkpoint is published after the remote has that commit, because the first attempt does not push and the replay does.
- EffectJournal.CrashConvergence: takes the next revision to be above the previous one; AcceptedReports.ReviewConvergesIff is about the acceptances that keep it.
- EffectJournal.CrashConvergence: compares runs without their update times and without evaluation records, which a replay does not repeat.
- EffectHistory.HistorySafety: takes every operation to be called with the stored counters and the run's own comment identity, and a publisher that cannot list statuses to be given a new one; what happens otherwise is stated by HarnessResumes.AdmittedResumeKeepsIff and CommitStatuses.PublishKeepsDistinct.
- EffectHistory.HistorySafety: nobody deletes a comment or a pull request, takes a marker off a comment, or posts a status of the factory's own kind.
- AcceptedReports.ReviewConvergesIff: ends with the saved run; the pull request text, the repair or the readiness that the review stage goes on to, the rounds of a partitioned review, and the test run behind an accepted test report are not modelled. A general recovery goes on with reviews alone; test reports are gone on with when they are submitted again.
- HarnessResumes.ReplayKeeps: the rollback after a rate limit or an authentication failure is one answer of the runtime; how the runtime classifies it is not modelled.
- HeadlessProtocol.SuccessMeansStopped: one launch without the replace flag, no helper that crashes and no failing file access; the helpers are one state machine over their interleaved steps instead of three procedures.
- BugReports.AtMostOneIssue: submissions of one draft follow one another, as their lock makes them; a lock that is held elsewhere is one of the outcomes.
- EventText.SortsByCreation: starts from the UTC calendar fields of a time; the calendar itself belongs to the Go library.
- PlanResolver.Resolver.IntermediateNode: the shared nodes are values in the resolver's maps, written back after each change, instead of shared references; identities are ASCII, so their length in characters is their length in bytes.
- AzurePlanning.SafeKind: which characters are letters or digits is a parameter, since the tables belong to the Go library.
- PullRequestBodies.MergeReadsBack: bodies are sequences of characters; on valid UTF-8 searching them and searching their bytes agree.
- The worker launch and the standalone label transition, two further journal kinds, and the paths without a journal.
- Rendering of comments, plan bodies and pull request sections, and the limits on rendered items.
- The adapters for GitHub, Azure DevOps, Git, the harness and the worker, and the comments on pull requests beyond clarification questions.
- The checks that the process of an Azure DevOps project supports a plan.
- Validation of a whole run before an effect, and everything the command line, the configuration and the web interface do.
- Path, permission and signal handling of the headless helper, and exit codes.
