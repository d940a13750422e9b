# Katydid, verified

Katydid (the Vultron service) watches repositories, runs their checks, lets an AI repair what fails,
delivers the repair after verification and review, and keeps releases running. This project models its
coordinating core in Dafny and proves what that core promises, over every run, every interleaving and
every failure its code provides for.

`dafny verify dfyconfig.toml` checks the whole project.

## The models

Parts that change state are classes, as in the program. Where properties span many operations, a class is
proved to do what functions on its value say, and lemmas about whole runs of those functions follow;
elsewhere the methods' own contracts state what is promised. Whatever the program does not decide is an input:
what clocks show, which calls fail or die, what the provider, the AI, Docker and the operating system
answer, and what others do in between.

**The control store and its users.** `rows.dfy` has the rows and every legal way to rewrite one,
`store_spec.dfy` the transactions, `control_store.dfy` the class `Store` with its tables. A run
(`store_runs.dfy`) is any sequence of transactions by any number of workers, operators and event handlers;
each is a batch of row writes with one event beside each write. `store_log.dfy` shows that the event log
rebuilds the table, `store_leases.dfy` that leases fence, `store_deliveries.dfy` and `store_guarantees.dfy`
what deliveries, groups and idempotency keys promise, `store_answers.dfy` what each transaction answers and
writes, column by column, and why tasks end. `workers.dfy` composes the store with controllers and their
exception exit; `ingress.dfy` and `github_ingress.dfy` with event handlers that retry a compare-and-swap
while others commit, `ingress_answers.dfy` says which of their looks decides, and `ingress_races.dfy` is one
event under two configurations.

**One repair run.** `workspace.dfy` is the Git workspace (base, HEAD, files, index, edit manifest),
`repair_spec.dfy` the run from baseline to release, `repair_runs.dfy` what can reach publication for any
AI answers and any changes that checks and reviews make on the way, `repair_answers.dfy` for
which answers it gets there, `repair_controller.dfy` the run as the program carries it out.

**The managed release.** `deployment_spec.dfy` has the registry file, a process table with reused PIDs
and reboots, and the five commands, any of which may be refused, fail or die between two steps;
`deployment_facts.dfy` and `deployment_runs.dfy` what they keep, `deployment_answers.dfy` what they say of
probes and processes, `deployment_checkpoints.dfy` which registries they write in which order,
`deployment_progress.dfy` when they end well; `managed_release.dfy` the commands step
by step. `rotating_log.dfy` is the bounded log of a deployed service.

**The comment outbox.** `outbox.dfy` is one task's report row with any number of reporters that take,
list, write and settle, `outbox_races.dfy` two runs that show which premises are needed,
`github_comments.dfy` and `comment_reporter.dfy` the requests of one call and the table, of which one tick
is shown to be a run of those steps.

**A run and its verdict.** `outside.dfy`, `check_executor.dfy`, `environment_session.dfy` and `run_plan.dfy`
are preparation, checks and cleanup under cancellation and exceptions, where each cleanup hook has a
cancellation of its own, every execution is on record with the faults that it met itself, and containers may
be created or removed without a good reply; `evidence_gate.dfy` the gate; `junit.dfy` the strict report reader and the
two writers it must agree with; `policy.dfy` the central requirements derived from a profile.

## What the proofs found

For each property that is false of the code, the code is modelled as it is, a lemma gives a concrete run,
and another gives the exact condition under which the property holds.

- `claim` and `renew` read the clock before they get the write lock. For claims this is harmless. A renewal
  stamped before its lease ran out that commits after another task of the repository was claimed leaves two
  live leases (`StoreLeases.LateRenewalBreaksExclusion`). Exclusion and the finality of lost leases hold
  exactly without such renewals (`RepositoryExclusionIff`, `LostTokensStayLostIff`).
- A redelivery need not repeat the status of the first answer. When two processes with different
  configurations share the store, one that ignores an event can be overtaken, between its replay lookup and
  its storing, by one that takes it; it says "ignored" and every redelivery says "enqueued"
  (`IngressRaces.TwoConfigurationsDisagree`). Such overtaking is the only case
  (`Ingress.HandlersAreRemembered`), and with one configuration it cannot happen
  (`IngressRaces.OneConfigurationAgrees`).
- The controller compares patches, not trees: if checks moved HEAD before the verification, the delivered
  tree is not the tested one although the patches are equal (`RepairRuns.MovedHeadDeliversUntested`,
  `RepairRuns.DeliveredTreeWasTestedIff`).
- Repeating a deploy whose start failed forgets the rollback target (`DeploymentRuns.RetryForgetsTarget`,
  `DeploymentRuns.RetryKeepsTargetIff`).
- docs/GITHUB_COMMENTS.md says that a failed update is retried. If its reply was lost after it took effect
  and the report then returns to the last confirmed body, the row is never taken again and the comment keeps
  showing the other body (`OutboxRaces.LostReplyHidesChange`, `Outbox.MidWriteBodyIsTakenIff`).

Four more facts that a reader of one function would not expect:

- `release` itself would requeue a task from publishing, deploying or monitoring
  (`StoreLeases.UnknownOutcomesRequeueOnlyByRelease`); only the controller's order of lookups prevents it
  (`Workers.EffectsAreNeverSilentlyRetried`).
- A paused task is queued again by `steer` as well as by `resume`, as docs/STATE.md also says
  (`StoreGuarantees.ReplacementsWaitForOperators`).
- A crash inside a log rotation keeps the order of what is left, but unless it came before the first move or
  after the last, reopening rotates again and one more generation is lost (`RotatingLog.CrashRetention`).
- Recovery records the entry it launched under the old status before it probes it. When that probe fails the
  registry still says healthy of an entry that never answered
  (`DeploymentProgress.RecoveryStopsWhatItCannotReach`); what holds in every run is that the same commit and
  spec once answered (`DeploymentAnswers.EstablishedMeansReached`).

## Model

| member | source | states |
|---|---|---|
| StoreLog.LogRefinesTable | src/katydid/store.py:269-285 | after any run of store transactions, folding a task's events in order rebuilds exactly its state, control epoch, lease, instructions and result, which holds because every row change is written together with its event |
| StoreLog.EventEpochsNeverFall | src/katydid/store.py:269-285 | along the whole log the recorded epochs of one task never fall |
| StoreLog.LogOnlyGrows | src/katydid/store.py:269-285 | no transaction ever removes or rewrites an event |
| StoreLog.ReachableRowsShaped | src/katydid/store.py:112-118 | in every reachable state ended and paused rows hold no lease, every other state but queued holds one, a lease carries the control epoch, and a result is present exactly when the row has ended |
| StoreLog.StepOnRow | src/katydid/store.py:947-1094 | no transaction lowers an epoch, drops an instruction, changes the identity columns of a task, or touches a row that has ended |
| StoreLog.TerminalRowsAreFinal | src/katydid/store.py:947-989 | a row that ended is the same row, column for column, after any further run |
| StoreLog.BudgetSurvivesEpochs | src/katydid/store.py:852-877 | with one configured limit no task is charged more AI calls than the limit over all its claims and epochs, and reservations are numbered 1, 2, ... |
| StoreLeases.ClaimRaisesEpoch | src/katydid/store.py:780-820 | a claim issues a valid token whose epoch is above that of every token issued for the task before |
| StoreLeases.ClaimsIssueRisingEpochs | src/katydid/store.py:780-820 | of two claims of one task, with anything in between, the later has the strictly larger epoch, although `release` itself does not raise it |
| StoreLeases.TokenRevivesIff | src/katydid/store.py:822-842 | a token that failed validation passes later exactly when a renewal of its own lease, stamped before the loss, commits after it |
| StoreLeases.LostTokensStayLostIff | src/katydid/store.py:822-842 | over whole runs a lost token fails at every later commit exactly without late renewals of its own lease |
| StoreLeases.NoLeaseRevives | src/katydid/store.py:360-370 | with stamps that never go back in commit order, a token lost by expiry, control, supersession, release or ending fails at every later moment of the run |
| StoreLeases.LiveBecause | src/katydid/store.py:780-842 | a row holds a live lease after a step only if it did before, or the step claimed it while no other task of the repository was live, or renewed it late |
| StoreLeases.ExclusionBreaksIff | src/katydid/store.py:780-842 | one live lease per repository survives a transaction exactly when that transaction is not an overtaken renewal |
| StoreLeases.RepositoryExclusionIff | src/katydid/store.py:780-842 | over whole runs: exclusion holds at every commit exactly when no renewal of the run is overtaken |
| StoreLeases.RepositoryMutualExclusion | src/katydid/store.py:791-803 | with stamps read in commit order, no two tasks of one repository ever hold unexpired leases together |
| StoreLeases.LateRenewalBreaksExclusion | src/katydid/store.py:822-842 | the premise is needed: a concrete reachable state and a renewal, stamped before it gets the write lock, after which two tasks of one repository are live |
| StoreLeases.UnknownOutcomesRequeueOnlyByRelease | src/katydid/store.py:991-1015 | from publishing, deploying or monitoring a task goes back to queued or paused exactly by a `release` of its valid lease |
| StoreLeases.InterruptedEffectsEndUnresolved | src/katydid/store.py:1039-1051 | control, expiry and supersession leave such a task alone or end it as unresolved with a result and no lease |
| StoreLeases.PausedTasksWait | src/katydid/store.py:1017-1094 | a paused task gets no lease from any transaction, is queued again only by an operator's resume or steer, and otherwise stays paused or ends |
| StoreLeases.PausedUntilLetGo | src/katydid/store.py:1017-1094 | over every run without such a resume or steer a paused task is paused or ended and has no lease |
| StoreDeliveries.StepKeepsInv | src/katydid/store.py:412-693 | every transaction keeps the invariant of the delivery tables: rooted replay keys, agreeing aliases, tasks filed once, versions that count deliveries, unique idempotency keys |
| StoreDeliveries.ReachableKeysUnique | src/katydid/store.py:372-410 | in every reachable state an idempotency key belongs to one task |
| StoreGuarantees.OneLiveTaskPerGroup | src/katydid/store.py:528-561 | each event group has at most one task that has not ended, and that task carries the current version of the group |
| StoreGuarantees.VersionCountsDeliveries | src/katydid/store.py:528-542 | the version of a group is the number of its accepted deliveries, which carry the versions 1 to that number, each once |
| StoreGuarantees.VersionMovesWithDeliveries | src/katydid/store.py:528-542 | over any run a group's version rises by exactly the number of deliveries accepted in it |
| StoreGuarantees.SupersededNeverCompletes | src/katydid/store.py:561-609 | once a newer delivery of its group is accepted, a task is cancelled or unresolved for good and its worker can move it nowhere at any later time |
| StoreGuarantees.ReplacementOfUnknownWaits | src/katydid/store.py:554-613 | a replacement for work that may have had an external effect, or was paused, starts paused without a lease; its creation is marked for reconciliation |
| StoreGuarantees.ReplacementsWaitForOperators | src/katydid/store.py:554-613 | over every later run no worker can claim that replacement before an operator resumes or steers it, and while it is paused either of the two queues it |
| StoreGuarantees.ReceiptsNeverChange | src/katydid/store.py:649-693 | a receipt keeps its body, repository, group, version, task and recorded replay key through any further run |
| StoreGuarantees.OneReceiptPerReplayKey | src/katydid/store.py:463-519 | all deliveries that recorded one provider, repository and replay key agree on body, group, version and task |
| StoreGuarantees.TasksComeFromOneDelivery | src/katydid/store.py:613-647 | two original deliveries never name the same task |
| StoreGuarantees.RedeliveryRepeats | src/katydid/store.py:435-519 | a redelivery, by delivery id or by replay key, changes no task, event or group and repeats the original receipt |
| StoreGuarantees.CreateTaskIsIdempotent | src/katydid/store.py:372-410 | repeating a creation under its key returns the first task, after any run in between |
| StoreAnswers.CreateAnswers | src/katydid/store.py:372-410 | a creation answers with the owner of its key, refuses another request under that key, or stores one queued, untouched task with one event |
| StoreAnswers.ClaimAnswers | src/katydid/store.py:780-820 | a claim succeeds exactly on a queued task in whose repository every lease has run out, raises the epoch by one, issues this lease and leaves state and result |
| StoreAnswers.RenewAnswers | src/katydid/store.py:822-842 | a renewal succeeds exactly for the holder of the unexpired lease and moves its expiry only |
| StoreAnswers.ActiveAnswers | src/katydid/store.py:844-850 | work may go on exactly for the holder of a task that has neither ended nor been paused |
| StoreAnswers.ReserveAnswers | src/katydid/store.py:852-877 | a reservation of the holder is charged exactly while the task has fewer reservation events than the limit, and no row changes |
| StoreAnswers.RecordAnswers | src/katydid/store.py:879-945 | a release is recorded exactly for a full lower-case commit id by the holder of a monitoring task, and no row changes |
| StoreAnswers.MoveAnswers | src/katydid/store.py:947-989 | a transition of the holder stores exactly the requested state in row and event; result and lease change exactly when that state ends the task; everything else stands, and each refusal has its guard |
| StoreAnswers.ReleaseAnswers | src/katydid/store.py:991-1015 | a release of the holder queues the task without a lease, at the same epoch and with its result |
| StoreAnswers.ControlAnswers | src/katydid/store.py:1017-1094 | pause, resume, cancel and steer store what they say, except that a task with a possible outside effect ends unresolved; each takes the lease, raises the epoch and is refused exactly on ended tasks and resumes of tasks not paused |
| StoreAnswers.RecoverAnswers | src/katydid/store.py:1096-1151 | recovery takes back exactly the leases that ran out, in creation order: queued, or unresolved after a possible outside effect; no other row changes |
| StoreAnswers.RecoveryIsLogged | src/katydid/store.py:1096-1151 | each of these is logged, in that order, with its former holder and state |
| StoreAnswers.NewDeliveriesAnswer | src/katydid/store.py:528-542 | a delivery seen for the first time is accepted unless it is misshaped, its group moved on, or its identifier is taken |
| StoreAnswers.RepeatedDeliveriesAnswer | src/katydid/store.py:435-519 | a repeated delivery gets the first receipt exactly if it says the same, and writes at most a copy of that receipt |
| StoreAnswers.NewTasksStart | src/katydid/store.py:553-613 | the task of an accepted delivery starts paused if and only if a task of its repository and group that had not ended was paused, publishing, deploying or monitoring, and queued otherwise, so always without a group |
| StoreAnswers.DeliveriesReplace | src/katydid/store.py:561-609 | an accepted delivery ends exactly the tasks of its group that had not ended, each with the delivery as its result, and changes no other row |
| StoreAnswers.OnlyOneAppears | src/katydid/store.py:613-632 | no row appears but the delivery's own task |
| StoreAnswers.SupersessionsAreLogged | src/katydid/store.py:561-609 | the supersessions are logged, oldest task first, each with its cause |
| StoreAnswers.CreationIsLogged | src/katydid/store.py:613-632 | then the creation, with its cause and whether an operator has to look at what it replaces |
| StoreAnswers.DeliveriesAreFiled | src/katydid/store.py:600-693 | version, member, receipt, alias and replay key of an accepted delivery, and nothing else in those tables |
| StoreAnswers.EndsBecause | src/katydid/store.py:947-1151 | whatever transaction ends a task, it is one that may: each kind of end has its guard and its result |
| StoreAnswers.EveryEndHasItsCause | src/katydid/store.py:947-1151 | in every run a completed or failed task was so reported by the holder of its live lease, and a cancelled or unresolved one by that, an operator, an expired lease or a newer delivery, as its result says |
| ControlStore.Store.CreateTask | src/katydid/store.py:372-410 | updates the tables in place to the specified new state, or leaves them all as they were, and gives the specified reply |
| ControlStore.Store.Ingest | src/katydid/store.py:412-693 | the same for a delivery: duplicate, alias, version check, supersession of the whole group in query order, replacement task and receipts |
| ControlStore.Store.Claim | src/katydid/store.py:780-820 | the same for a claim |
| ControlStore.Store.Renew | src/katydid/store.py:822-842 | the same for a renewal |
| ControlStore.Store.AssertActive | src/katydid/store.py:844-850 | reports exactly when a lease is missing, stale, or of a task that ended or is paused |
| ControlStore.Store.CountReservations | src/katydid/store.py:852-877 | counts the reservation events of a task over all its epochs |
| ControlStore.Store.ReserveAiCall | src/katydid/store.py:852-877 | the same for a reservation: one more numbered event, or no change |
| ControlStore.Store.RecordReleaseSuccess | src/katydid/store.py:879-945 | the same for the database half of a release record: a valid lease in monitoring, and one event |
| ControlStore.Store.Move | src/katydid/store.py:947-989 | the same for a transition |
| ControlStore.Store.Release | src/katydid/store.py:991-1015 | the same for a release |
| ControlStore.Store.Control | src/katydid/store.py:1017-1094 | the same for pause, resume, cancel and steer |
| ControlStore.Store.RecoverExpired | src/katydid/store.py:1096-1151 | the same for recovery: every expired row is rewritten, in order of creation time and id |
| Workers.EffectsAreNeverSilentlyRetried | src/katydid/controller.py:476-487 | in the store composed with any number of workers, operators and handlers, no step takes a task straight from publishing, deploying or monitoring to queued or paused |
| Workers.OthersKeepTracks | src/katydid/controller.py:476-487 | what a worker saw of its task before it confirmed its lease stays true until it acts, whatever others commit |
| Workers.RevokedWorkersFinishNothing | src/katydid/controller.py:476-490 | a lease that its worker has lost, to control, expiry or supersession, is never owned again over any further moves of the system, so nothing that worker does ever changes the store |
| Workers.LeavingAnswers | src/katydid/controller.py:476-487 | whatever others did since it looked, a worker that still holds its task leaves it unresolved after a possible outside effect, queued when told to stop, and failed otherwise |
| Ingress.HandlerCommitsAtMostOnce | src/katydid/events.py:251-283 | the retry loop ends in the database that the steps of others and at most one step of its own lead to |
| Ingress.NewReceiptsAreFresh | src/katydid/events.py:251-283 | for any interleaving, a newly filed grouped receipt has version v + 1, its task holds the payload observed after v was read, and no other delivery of the group was accepted in between |
| Ingress.AttemptCommitsIff | src/katydid/store.py:528-542 | for a delivery not filed yet, the compare-and-swap succeeds exactly when no delivery of the group was accepted since the version was read |
| Ingress.FailuresLeaveNoReceipt | src/katydid/events.py:251-283 | giving up, aborting or conflicting leaves nothing of the handler's own behind |
| Ingress.AnswersAreRemembered | src/katydid/events.py:168-192 | whatever the loop answers is what the duplicate lookup says from then on |
| Ingress.HandleCommitsAtMostOnce | src/katydid/events.py:285-334 | a whole handler, through duplicate, replay and routing, adds at most one step to the run, and none when it fails |
| Ingress.RedeliveryRepeatsStatus | src/katydid/events.py:168-192 | a redelivery gets the same receipt data and status after any further run |
| Ingress.ReplaysChangeNothing | src/katydid/events.py:193-212 | a known body under any delivery id changes no task, event or group, whatever others do meanwhile; it is answered exactly if it contradicts nothing on file, with the original receipt unless somebody filed the id without a replay key, and is a conflict that changes nothing at all otherwise |
| Ingress.HandlersAreRemembered | src/katydid/events.py:214-231 | the reported status is what every later redelivery reports, except exactly for an unwanted event that meets, when it stores, a receipt another route filed since its replay lookup |
| IngressAnswers.FirstNotLostDecides | src/katydid/events.py:251-283 | the first attempt that neither saw a race nor lost the compare-and-swap decides, by what it observed at the version it read; the handler gives up exactly when all are lost |
| IngressAnswers.HandlerAnswers | src/katydid/events.py:285-334 | a delivery on file is answered from there, a known replay key files a copy, and only then the route counts: nothing, an ignored receipt, or the retry loop |
| IngressAnswers.StatusMeans | src/katydid/events.py:168-182 | enqueued exactly with a task, cancelled exactly for a group other than a release without one |
| IngressAnswers.DuplicateMeans | src/katydid/events.py:168-182 | a delivery on file is answered with what is on file exactly if it says the same, and conflicts otherwise |
| IngressRaces.TwoConfigurationsDisagree | src/katydid/events.py:428-464 | a concrete run: a process that ignores pushes is overtaken by one that takes them, reports "ignored", and every later redelivery reports "enqueued" |
| IngressRaces.OneConfigurationAgrees | src/katydid/events.py:214-231 | as long as every process treats an event as unwanted none of its handlers is overtaken, and every redelivery reports the same "ignored" receipt |
| GitHubIngress.Handler.FindDuplicate | src/katydid/events.py:168-182 | the lookup over the store object is the specified one: nothing, the earlier receipt, or a conflict |
| GitHubIngress.Handler.StoreGrouped | src/katydid/events.py:251-283 | the loop over the store object, with others performing their transactions between its calls, makes three attempts at most and does what the specification says |
| GitHubIngress.Handler.Ingest | src/katydid/events.py:285-334 | the same for the whole handler |
| RepairRuns.DeliveriesAreJustified | src/katydid/controller.py:333-404 | whatever a repair run commits or publishes differs from the base by a patch that passed the gate and was then approved without concerns in one attempt, is not empty, touches editable paths only, and passed the release stage where there is one |
| RepairRuns.DeliveriesKeepTheRest | src/katydid/controller.py:526-533 | at every path outside the editable list, profile and protected files included, a delivered tree is the base |
| RepairRuns.VerificationsAreWellTested | src/katydid/controller.py:334-355 | every verification of a run tested an allowed, nonempty change with the protected files as first read |
| RepairRuns.DeliveredTreeWasTestedIff | src/katydid/controller.py:396-404 | every delivered tree has an accepted attempt with the same patch before it; that makes it the very tree that was tested exactly when HEAD was still the base at the test, which the code does not compare |
| RepairRuns.MovedHeadDeliversUntested | src/katydid/controller.py:333-404 | a concrete run: the baseline checks commit a file, the attempt's checks take that commit back, and the published tree is none that checks ever started from although its patch is the accepted one |
| RepairRuns.ReleasesAreVerified | src/katydid/controller.py:259-302 | a release runs on a tree published before it, or on the unchanged base after its own checks passed |
| RepairRuns.PullRequestsRunProtected | src/katydid/controller.py:225-240 | nothing runs for a pull request that changes the profile or a protected file |
| RepairRuns.HonestExecutionsDeliver | src/katydid/controller.py:259-404 | no false refusal of a whole run: after a sound failing baseline, with checks, reviews and a commit that leave tracked and editable files alone, an accepted attempt is published as the very tree that was accepted, and released when that tree is what was merged |
| RepairRuns.SettledCandidatesAreDelivered | src/katydid/controller.py:379-404 | in a workspace where only edited paths differ from HEAD, a candidate passes every guard from acceptance to publication and release |
| RepairRuns.EditsKeep | src/katydid/workspace.py:372-440 | an accepted edit batch keeps a workspace in which only edited paths differ from HEAD |
| RepairRuns.SettledCommits | src/katydid/workspace.py:449-467 | in such a workspace the commit of the edited paths takes the whole visible change and leaves no diff |
| RepairAnswers.EntriesAreAnswers | src/katydid/controller.py:145-475 | every verdict in the evidence is the one that was given: gates, reviews, release stage, publication and merge, and what was tested is what the attempt found and edited |
| RepairAnswers.TryAllAnswers | src/katydid/controller.py:333-378 | the loop accepts exactly the attempt before which all were turned down and which passed sound checks and a review without concerns |
| RepairAnswers.DeliversIff | src/katydid/controller.py:303-475 | for all answers, a tree is committed, published, released, and the run done, exactly if that attempt exists in an allowed and diagnosed repair of a sound failing baseline, and release stage, commit, publication and merge took its change as it is |
| RepairAnswers.PassingBaselineIff | src/katydid/controller.py:259-302 | after a passing baseline the run is healthy or releases exactly as request and policy say, and commits nothing |
| RepairAnswers.DeliveriesPassed | src/katydid/controller.py:352-404 | whatever is committed or published had an attempt with sound checks that passed and an approval without concerns |
| RepairController.Controller.Execute | src/katydid/controller.py:145-475 | the run over a workspace on disk and growing evidence does exactly what the specification of a run says |
| RepairController.Controller.RepairLoop | src/katydid/controller.py:333-378 | at most the configured number of proposals, with the specified evidence and accepted patch |
| RepairController.Controller.DeliverCandidate | src/katydid/controller.py:379-475 | the specified guards, commit, publication and release of an accepted candidate |
| Workspace.GitWorkspace.ApplyEdits | src/katydid/workspace.py:372-440 | the whole batch is written, indexed and recorded, or refused without any change for a repeated, disallowed or ignored path |
| Workspace.GitWorkspace.Commit | src/katydid/workspace.py:449-467 | commits exactly the recorded paths, or refuses when one is missing or unknown or nothing changed |
| Workspace.AcceptedEditsAreSeen | src/katydid/workspace.py:372-440 | an accepted batch gives each of its paths, all editable, its one content, touches nothing else, records exactly its paths and adds to the index exactly those it creates, none of which Git ignores |
| Workspace.CommitsTakeEdits | src/katydid/workspace.py:449-467 | a commit changes something, takes exactly the edited paths as they are, leaves the files alone and none of those paths changed |
| Workspace.WrittenAt | src/katydid/workspace.py:416-436 | every edited path holds its new content and every other path its old one |
| Workspace.EqualPatches | src/katydid/controller.py:399-404 | equal patches lead to equal trees exactly when they start from equal trees |
| RotatingLog.FilesAgree | src/katydid/deployment.py:107-167 | through any writes, partial writes, failures and reopenings without a crash the files are the history cut into full blocks, newest generations first |
| RotatingLog.LogIsBoundedSuffix | src/katydid/deployment.py:107-167 | through any of these and any crashes inside rotations the files read oldest to newest are the end of the history, and none exceeds the cap |
| RotatingLog.LogKeepsEnough | src/katydid/deployment.py:107-167 | without crashes all of the history, or at least its last (count - 1) * cap bytes, are kept |
| RotatingLog.Log.constructor | src/katydid/deployment.py:113-133 | opening over any files cuts oversized ones to their tails and makes room in the newest |
| RotatingLog.Log.Rotate | src/katydid/deployment.py:140-153 | moving the generations one by one is one shift of the ring |
| RotatingLog.Log.Write | src/katydid/deployment.py:155-167 | ends after at most as many stream calls as bytes; whatever parts the stream accepts, the files are those of the accepted bytes written one by one; it fails only when a call accepts nothing or the log is not open |
| RotatingLog.Drain | src/katydid/deployment.py:170-184 | a session writes the chunks in order up to the first failure, as one sequence of log operations; a chunk is cut short only where the stream took nothing |
| RotatingLog.SessionsCompose | src/katydid/deployment.py:170-184 | sessions one after another are one longer history |
| RotatingLog.OpeningBounds | src/katydid/deployment.py:113-133 | over any files left by something else, opening brings every generation within the cap |
| RotatingLog.OpeningKeepsTails | src/katydid/deployment.py:113-133 | opening keeps the newest bytes of every file, as many as fit |
| RotatingLog.CrashKeepsSuffix | src/katydid/deployment.py:140-153 | a crash anywhere inside a rotation leaves, in order, a suffix of what was there |
| RotatingLog.CrashRetention | src/katydid/deployment.py:140-153 | after such a crash a full log keeps count - 1 generations when reopened if no file or every file had moved, and exactly one fewer otherwise |
| DeploymentFacts.StopOwnedFacts | src/katydid/deployment.py:945-979 | stopping kills only the two processes it is given, and success means both are gone at the end |
| DeploymentFacts.GoneStays | src/katydid/deployment.py:762-773 | within a boot a recorded process that is gone never comes back under its PID and birth |
| DeploymentFacts.StartFacts | src/katydid/deployment.py:982-1111 | a start launches into a world in which the replaced entry is cleared, kills only the supervisor it launched and the child that reported, and returns an entry of exactly these |
| DeploymentRuns.DeployFacts | src/katydid/deployment.py:1146-1221 | however it ends, deploy leaves the registry as it was or records its operation and the commit it replaced |
| DeploymentRuns.RollbackFacts | src/katydid/deployment.py:1244-1280 | success serves the recorded target and leaves no further one; any failure keeps the target |
| DeploymentRuns.RecoverFacts | src/katydid/deployment.py:1300-1373 | recovery never changes active commit, target, operation, spec or status |
| DeploymentRuns.HealthFacts | src/katydid/deployment.py:1224-1241 | health launches and kills nothing and records health only of an active entry of the given spec and operation |
| DeploymentRuns.StopFacts | src/katydid/deployment.py:1283-1297 | stop clears the entry only after its processes are gone |
| DeploymentRuns.DeployThenRollback | src/katydid/deployment.py:1146-1280 | deploying another commit over an active one, however it exits, and a rollback that succeeds make the first commit active again, and a second rollback is refused |
| DeploymentRuns.RetryKeepsTargetIff | src/katydid/deployment.py:1152-1197 | repeating a deploy keeps the rollback target exactly if the failed attempt left an active entry |
| DeploymentRuns.RetryForgetsTarget | src/katydid/deployment.py:1152-1197 | a concrete run from an empty registry: deploying one commit, then another whose start fails, then that one again loses the first as rollback target, so a rollback is refused |
| DeploymentRuns.EveryRegistryIsConsistent | src/katydid/deployment.py:1121-1132 | in every registry of every run, healthy or rolled back means an active entry of the recorded spec |
| DeploymentRuns.EveryLaunchReplacesClearedProcesses | src/katydid/deployment.py:906-979 | in every run each launch finds the entry it replaces gone or of an earlier boot, and every kill hits the process it aims at, which is a recorded one or one that an earlier launch of the same command named |
| DeploymentAnswers.DeployAnswers | src/katydid/deployment.py:1146-1221 | a deploy ends well only if the recorded processes were seen alive and then answered their probe, or if the entry that it launched in this boot answered its probe afterwards, its release was verified and it was written down as healthy; a newly healthy registry means such an end, and a failed probe of its launch is told as unhealthy in its last write |
| DeploymentAnswers.RollbackAnswers | src/katydid/deployment.py:1244-1280 | the same for a rollback to the recorded target, which it verifies before it touches anything |
| DeploymentCheckpoints.DeployCheckpoints | src/katydid/deployment.py:1146-1221 | all that a deploy writes is one chain: the opening (operation, no active entry, its rollback target, restarting exactly for the active commit), then unhealthy if the launch failed, or probing and then unhealthy if that checkpoint or the probe failed, else healthy; only death or a release that no longer verifies cuts it short |
| DeploymentCheckpoints.RollbackCheckpoints | src/katydid/deployment.py:1244-1280 | the same for a rollback, of which only the last checkpoint takes the target away and says what was rolled back |
| DeploymentAnswers.RecoverAnswers | src/katydid/deployment.py:1300-1373 | recovery of an established registry ends well only if both processes of this boot were seen and answered, with nothing else done, or the commit was launched again in this boot and then answered, was verified and recorded; what it starts and cannot reach it only stops |
| DeploymentAnswers.HealthAnswers | src/katydid/deployment.py:1224-1241 | healthy is recorded only after both processes were seen, the release was verified and the probe was answered |
| DeploymentAnswers.EstablishedMeansReached | src/katydid/deployment.py:899-903 | in every run a registry that says healthy or rolled back serves a commit and spec of which a probe was once answered |
| DeploymentFacts.AccountedTrans | src/katydid/deployment.py:899-980 | effects account for the answers used up, one by one and in order, and the registry is the last checkpoint that was written; this composes over any steps |
| DeploymentProgress.DeploysWhenAnswered | src/katydid/deployment.py:1146-1221 | onto nothing, or onto what an earlier boot ran, a deploy that is answered well ends well, healthy and with the right rollback target |
| DeploymentProgress.RollsBackWhenAnswered | src/katydid/deployment.py:1244-1280 | so does a rollback |
| DeploymentProgress.RecoversAfterReboot | src/katydid/deployment.py:1337-1373 | after a reboot recovery launches the active commit again and, answered well, ends well with the new entry |
| DeploymentProgress.LeftAloneWhenAnswered | src/katydid/deployment.py:1164-1180 | recovery and a deploy of the same commit leave a service that runs and answers alone |
| DeploymentProgress.HealthyWhenAnswered | src/katydid/deployment.py:1224-1241 | a service that runs and answers is found healthy |
| DeploymentProgress.StopsWhenAnswered | src/katydid/deployment.py:1283-1297 | a service that runs and ends on request is stopped without a kill |
| DeploymentProgress.WaitGoneIff | src/katydid/deployment.py:906-911 | waiting succeeds exactly if one of its inspections no longer shows the process |
| DeploymentProgress.KilledIff | src/katydid/deployment.py:914-943 | a process is killed exactly if it outlives its deadline and is still the same one; it fails exactly if another one is found in its place |
| DeploymentProgress.StopsGracefully | src/katydid/deployment.py:945-979 | processes that end on request are stopped without a kill |
| DeploymentProgress.ReusedPidsAreLeftAlone | src/katydid/deployment.py:762-773 | where another process has the recorded PID nothing is asked, killed or written |
| DeploymentProgress.UnreportedLaunchesAreKilled | src/katydid/deployment.py:982-1111 | a supervisor that reports nothing in time is killed |
| DeploymentProgress.BadReportsAreStopped | src/katydid/deployment.py:982-1111 | a launch with a bad report is asked to stop |
| DeploymentProgress.RecoveryStopsWhatItCannotReach | src/katydid/deployment.py:1337-1373 | a recovery whose new service does not answer fails, asks it to stop, and leaves it recorded under the old status |
| ManagedRelease.Machine.StopOwned | src/katydid/deployment.py:945-979 | the step-by-step stop does what the specification says |
| ManagedRelease.Machine.Deploy | src/katydid/deployment.py:1146-1221 | the same for deploy, with its checkpoints and exception path |
| ManagedRelease.Machine.Health | src/katydid/deployment.py:1224-1241 | the same for health |
| ManagedRelease.Machine.Rollback | src/katydid/deployment.py:1244-1280 | the same for rollback |
| ManagedRelease.Machine.Stop | src/katydid/deployment.py:1283-1297 | the same for stop |
| ManagedRelease.Machine.Recover | src/katydid/deployment.py:1300-1373 | the same for recover |
| Outbox.AtMostOneComment | src/katydid/reporting.py:215-324 | through any collects, takes, crashes, failures and lost replies of any number of reporters there is at most one comment with a task's marker, and a row that says posted shows its newest body |
| Outbox.UnsentBodiesAreTaken | src/katydid/reporting.py:378-397 | at any moment of any run a body that differs from the last sent one can be taken 300 seconds later at the latest |
| Outbox.MidWriteBodyIsTakenIff | src/katydid/reporting.py:378-447 | for any collects from the moment a row is taken, in any phase of the write, until after it was settled: the row will be taken again, within 300 seconds, exactly if its newest body is not the one then recorded as sent, confirmed or not, unless the write superseded a row whose body had not changed |
| Outbox.BodiesFollowReports | src/katydid/reporting.py:368-376 | in every run, timely or not, a row keeps its target and holds the last body reported for that target |
| Outbox.SupersededIsFinal | src/katydid/reporting.py:352-376 | a superseded row stays superseded, only collects may still replace its body, it is never sent again and its comment never changes |
| Outbox.RestingRowsAreShown | src/katydid/reporting.py:415-447 | at rest, with no failed attempt since the last success, the comment shows what was last sent |
| Outbox.BackoffGrowsToTheCap | src/katydid/reporting.py:434-447 | retry delays run from 15 seconds up to the cap of 300, never falling |
| OutboxRaces.LostReplyHidesChange | src/katydid/reporting.py:378-397 | a concrete run: a reply lost after its write took effect, then a body that returns to the last confirmed one, leave the other body on display and no tick will ever take the row |
| OutboxRaces.OverstayingDuplicates | src/katydid/reporting.py:394-396 | a concrete run: a reporter that writes after its lock ran out creates a second comment |
| GitHubComments.UpsertsAreAccounted | src/katydid/reporting.py:215-324 | whatever a call sends or reports is accounted for by its replies: a whole listing, at most one owned comment, the confirmed target, and the write's own echo |
| GitHubComments.Client.Upsert | src/katydid/reporting.py:215-324 | at most 14 requests, with the specified result and the specified write |
| GitHubComments.Client.ListOwned | src/katydid/reporting.py:249-272 | at most ten pages; finds exactly the owned comments of the listing up to its first short page, or nothing when a page fails or none is short |
| GitHubComments.ListingIsAtomic | src/katydid/reporting.py:250-268 | while comments are only added, a paged listing is exactly what exists when its last page is read |
| GitHubComments.CallsAreWrites | src/katydid/reporting.py:283-306 | a call sends what the outbox machine's write step sends for the same listing |
| GitHubComments.OwnAt | src/katydid/reporting.py:249-272 | the owned comments are exactly those of the account that begin with the marker's line, in order |
| GitHubComments.UntrustedCallsRaise | src/katydid/reporting.py:215-282 | without good answers up to the write, and at most one owned comment, a call raises and sends nothing |
| GitHubComments.TrustedCallsPublish | src/katydid/reporting.py:283-324 | with them it sends exactly the one write that is needed, and has published exactly if the provider echoes it |
| CommentReporter.Reporter.Collect | src/katydid/reporting.py:352-376 | one task's insert or update of the outbox table |
| CommentReporter.Reporter.Take | src/katydid/reporting.py:378-397 | takes and locks the first eligible row by next attempt and task id, if there is one |
| CommentReporter.Reporter.Tick | src/katydid/reporting.py:378-447 | changes the taken row only, to the specified outcome of its write over the row it finds at the end |
| CommentReporter.TicksAreTimelyRuns | src/katydid/reporting.py:378-447 | a tick nobody interferes with, whose at most 14 requests keep to their timeouts of 20 seconds with less than 20 seconds for everything else, is a run of outbox steps within the timing premise and ends with the row the tick writes |
| CommentReporter.ChoiceIsUnique | src/katydid/reporting.py:384-390 | the row a tick takes is determined |
| CommentReporter.OutcomesAnswer | src/katydid/reporting.py:399-447 | what each end of a tick writes, column by column, with delays of 15, 30, 60, 120, 240 and then 300 seconds |
| CommentReporter.EligibleMeans | src/katydid/reporting.py:378-397 | a row is taken exactly while its body is unsent, it is neither superseded nor disabled, due and not locked |
| EvidenceGate.EvaluateGate | src/katydid/evidence.py:113-147 | passes exactly if a required check is planned, the results are the planned set one for one, each required check passed, and every pass has exit code 0 and, for a test, passing evidence; advisories exactly for optional failures; its reasons and advisories are exactly those that hold |
| EvidenceGate.CompleteIsOneForOne | src/katydid/evidence.py:113-147 | a passing gate has exactly one result per planned check, and a passed one for each required check |
| EvidenceGate.ExpectedAt | src/katydid/evidence.py:113-115 | when two checks share an id, results are judged by the last of them |
| EvidenceGate.RequiredDecide | src/katydid/evidence.py:113-147 | over one backed result per check, in order, of a plan with distinct ids and a required check the gate passes exactly if every required check passed |
| EvidenceGate.CompleteMeans | src/katydid/evidence.py:113-147 | over checks with distinct ids the gate passes exactly if one is required and results and checks correspond one for one, each result answering for its check |
| CheckExecutor.StatusOf | src/katydid/runner.py:215-225 | a status is passed exactly for exit code 0 with, for a test, a passing report |
| CheckExecutor.OutcomesMean | src/katydid/runner.py:121-225 | each end of a program has its status, exit code and evidence |
| CheckExecutor.Executor.Remove | src/katydid/docker.py:608-647 | a container is marked removed only once the daemon said that it is gone |
| CheckExecutor.Executor.Contain | src/katydid/docker.py:649-868 | no container escapes the journal whatever call fails or loses its reply; a pass means the container ended with 0 and is gone; one left behind, or a report that cannot be collected safely, is an error on record; without a fault of its own the result is what the program's end and report say, unless a request to cancel was found first |
| CheckExecutor.Executor.Execute | src/katydid/runner.py:299-339 | a pass is backed by exit code 0 and a passing report; a request to cancel counts only through the event and marker file it is handed; without a fault of its own a program is started and reported as it ended unless such a request was found first |
| CheckExecutor.Executor.Attempt | src/katydid/environment.py:72-82 | one execution in a new folder, on record with the faults that it met itself, the program it took and its answer |
| CheckExecutor.Executor.Cleanup | src/katydid/docker.py:870-889 | every container left is tried once more, in order, whatever happened to the others, with every fault charged to one of them; each is gone unless its own try met a fault; without faults none is left and no error is recorded |
| EnvironmentSession.Session.Prepare | src/katydid/environment.py:84-145 | ready means that every preparation hook was executed in its own folder, in order, and passed, and a probe then passed within its budget; without an exception it stops short only when cancelled, out of budget or time after all hooks passed, or for a hook or probe that failed; a request to cancel that is there before starts nothing; it stops short only for such a cause, and raises only after a failure |
| EnvironmentSession.Session.ProbeUntilReady | src/katydid/environment.py:101-138 | ends within the attempt budget; success is the first passing probe; cancellation is noticed between and during the delays |
| EnvironmentSession.Session.Cleanup | src/katydid/environment.py:147-185 | once anything was started every cleanup hook is tried once and in order, whether or not the run was cancelled and whatever other hooks and checkpoints do; in an executor that is prepared a hook that met no fault itself ran and is recorded as its program ended, unless the session's own cleanup marker stopped it; every fault on the way is charged to the one hook that met it; complete means that all passed, and it raises exactly when a checkpoint could not be written |
| RunPlan.Runner.Checkpoint | src/katydid/runner.py:264-297 | the written gate passes exactly in the completed state with nothing against the run |
| RunPlan.Runner.RunChecks | src/katydid/runner.py:367-394 | in a ready run every check is executed in its own folder, in order, until a request to cancel is found, the rest are recorded as cancelled, and every fault is charged to one of them; otherwise nothing is executed; one backed result per check, and it stops short only where an execution raises or a checkpoint cannot be written |
| RunPlan.Runner.CleanUp | src/katydid/runner.py:400-416 | the executor is cleaned up whatever the environment's cleanup returned: all its hooks were tried, then every container left, each with its own faults only; without faults there no container is left |
| RunPlan.Runner.Run | src/katydid/runner.py:359-425 | however the run ends, cancelled or not, every cleanup hook of a started environment and every container left was tried, with each later fault charged to one of them; a passing gate, on disk or returned, means a complete, clean run that was not cancelled; when nothing failed and nobody asked to cancel, every check ran, is reported as its program ended, and the gate passes exactly if the results are complete (with distinct ids: every required check passed), the cleanup hooks passed and no container left an error; an environment is not ready only after a failure, a request to cancel, a hook or probe that did not pass, or no attempt or time left |
| JUnit.PassedMeans | src/katydid/evidence.py:72-110 | a report reads as passed exactly when it is acceptable, some testcase passed and none failed or errored |
| JUnit.OtherReadingsMean | src/katydid/evidence.py:72-110 | every other reading says exactly why: not acceptable, a failure, no testcase, or all skipped |
| JUnit.AcceptableMeans | src/katydid/evidence.py:56-110 | a report is acceptable exactly if, at every depth, testcases are in suites and outcomes in testcases, testcases are named and have one kind of outcome, and summaries count what is below them |
| JUnit.PassedReadingsSatisfyTheGate | src/katydid/evidence.py:113-147 | the gate's condition on test evidence holds of exactly the readings that passed |
| JUnit.ReadingsAreReports | src/katydid/evidence.py:72-110 | every reading of a report has one of the statuses an execution can return, and a passed one has passing tests |
| JUnit.NestedSuitesCountOnce | src/katydid/evidence.py:56-70 | the total of an accepted report is the sum of its suites' own testcases, so no nesting counts one twice |
| JUnit.WriteUnittest | src/katydid/onboarding.py:206-233 | writes a summary that counts the outcomes and one node per case, in order |
| JUnit.WrittenIsAcceptableIff | src/katydid/onboarding.py:206-233 | the reader accepts what the unittest writer wrote exactly when every case has a name |
| JUnit.UnittestReportsAgree | src/katydid/onboarding.py:243-268 | reader and writer agree on all counts; passed exactly when some case passed and none failed or errored; exit 0 exactly for passed or everything skipped |
| JUnit.ScanReportsAgree | src/katydid/security.py:548-574 | exit 0 reads as passed, exit 1 as failed with as many failures as findings, and exit 2 as failed with one error, given that every raised scanner error has a text |
| Policy.GeneratedPolicyFits | src/katydid/onboarding.py:989-1013 | the requirements of a supported stage are exactly the required checks that its plan selects, with their kinds |
| Policy.GeneratedPolicyAcceptsItsPlan | src/katydid/onboarding.py:945-948 | the plan of a supported stage exists and is accepted |
| Policy.AcceptedPlansKeepEveryCheck | src/katydid/fleet.py:311-319 | a plan is accepted exactly when it keeps every required check of the stage, required and of its kind |
| Policy.WeakenedPlansAreRefused | src/katydid/fleet.py:311-319 | a plan without one of those checks, or with it optional or of another kind, is refused |
| Policy.OnlySupportedStagesHavePlans | src/katydid/profile.py:324-331 | a stage has a plan exactly if some required check names it |
| Policy.MakePlan | src/katydid/profile.py:324-331 | selects the checks of the stage in order, and refuses when none of them is required |
| Policy.SelectedAt | src/katydid/profile.py:324-331 | the plan is exactly the checks of the stage, in order and as the profile has them |
| Policy.GeneratedIff | src/katydid/onboarding.py:989-1013 | a policy is generated exactly if one required check belongs to every stage that has a required one |
| Policy.PassingRunsMeetThePolicy | src/katydid/fleet.py:311-319 | a passing gate over a plan that keeps a required check holds a passing, backed result of that check |

## Left out

- StoreLeases.NoLeaseRevives: needs stamps that never go back in commit order; TokenRevivesIff says exactly what happens without them.
- ControlStore.Store.RecordReleaseSuccess: the database half only; the file it writes beside the database is not part of this model.
- ControlStore.Store.ReserveAiCall: what a provider does with a reserved call is an arbitrary answer of the repair script.
- ControlStore.Store.CreateTask: random identifiers are parameters, so a collision is an error result; field lengths, character classes and JSON encoding of arguments are not modelled.
- ControlStore.Store.Ingest: payloads are opaque texts and digests stand for the bodies they are computed from; the receipt's copy of the current task row is left out.
- Workers.EffectsAreNeverSilentlyRetried: of the controller only lease use, transitions and the exception exit; its work between them is the repair run, where a lost lease is any step that answers nothing.
- Ingress.NewReceiptsAreFresh: what the provider showed is one opaque observation per attempt; the field checks that build it belong to the routing input.
- RepairRuns.DeliveriesAreJustified: a patch is the full-index difference of two trees, so file modes and the stripping of outer white space before two diff texts are compared are not modelled; nothing but checks, reviews and the steps before the commit changes the workspace.
- RepairController.Controller.Execute: branch updates, pull requests and merges at the provider are answers; the deploy, health and rollback hooks behind a release are not expanded.
- Workspace.GitWorkspace.ApplyEdits: byte limits, links and file modes are left out, and the batch is written without a crash in its middle.
- RotatingLog.Drain: what happens to output after the first failing write, which is read and dropped.
- RepairController.Controller.DeliverCandidate: publication, merge and the release hooks behind it are single answers of the script.
- DeploymentFacts.StartFacts: the launch request files, the token of the handshake and the Windows launcher are answers.
- DeploymentRuns.EveryLaunchReplacesClearedProcesses: about the entry in the registry; a supervisor whose start was never checkpointed because the program died is not tracked, and identity check and signal are one step.
- ManagedRelease.Machine.Deploy: materializing and verifying release trees, the launch request files and the HTTP probe are answers; the Windows launcher case of the handshake is left out.
- Outbox.AtMostOneComment: a write takes effect within its request or never, one account comments, nobody else deletes or edits its comments, and each reporter lists, writes and settles within the 300 seconds of its lock.
- CommentReporter.TicksAreTimelyRuns: one tick without interference; how ticks of several reporters interleave is what Outbox is about.
- GitHubComments.ListingIsAtomic: comments that are deleted while pages are read are outside its premise.
- CheckExecutor.Executor.Execute: progress files are left out, and an external interrupt is noticed only while a program runs.
- CheckExecutor.Executor.Contain: a container that appears only after its creation call was given up and its removal confirmed is not modelled; image, source snapshot, ownership labels, log capture, directory permissions and expiry sweep are left out.
- EnvironmentSession.Session.ProbeUntilReady: how long a probe may run is part of how its program ends; its own timeout is not computed.
- RunPlan.Runner.Checkpoint: of the run file only state and gate.
- JUnit.PassedMeans: starts from the parsed tree; XML parsing, size and recursion limits and the text form of integers are left out.
- JUnit.WrittenIsAcceptableIff: characters that XML cannot carry are outside the tree model.
- Policy.AcceptedPlansKeepEveryCheck: the bounds that central policy puts on isolation are left out.
- SQLite, its locking and its encoding: each write transaction is one step.
- `merge_local`, pull-request waiting and merging, and every other Git and `gh` operation: plumbing around the steps modelled here.
- AI providers, prompts, redaction of report text, YAML and field validation, HTTP servers, dashboard, service loop and command lines: string and interface plumbing that would add easy members only.
