# Werkt control plane: a verified model

Werkt runs automations: packages are deployed as immutable revisions, triggers create events and runs, workers claim
runs under a lease and write one outcome each, approvals suspend work until a person answers, and retention deletes
storage nobody needs. Beside it stand an investigation registry whose cloud submissions must not be repeated, a client
of the VM host that may lose replies, an authoring compiler, and a signed artifact digest. This project models the logic
of these parts in Dafny and proves what they promise for every interleaving, every input and every failure point.

How the files fit together:

- **The store.** `Tables` holds the rows, `Transactions` one function per transaction or guarded statement, and `Store`
  the store object whose methods do the work step by step in a transaction copy and are proved to do what those
  functions say. A statement that is a single guarded update (releasing a run, the deployment lease and stage updates,
  detaching storage, deleting a secret) is given by its function alone. `Accepted` says of each operation, in terms of
  the rows before and after, when it takes effect and what it leaves behind.
- **All actors together.** `World` interleaves run workers, deployment workers, operators, the scheduler, retention and
  the clock, one committed transaction at a time, and keeps a history no action can erase: outcomes, committed state
  values, activations, firings. `Shapes` and `Moves` say which rows an action may touch. `Journal`, `Storage`, `Fence`,
  `StateChain`, `Promotion`, `Approvals`, `Effects` and `Schedules` each prove one part of the invariant that
  `Guarantees` shows inductive; `Exclusion` treats `forbid` concurrency, `Occurrences` the runs of a schedule,
  `Permanence` what is never taken back, `Timing` what waits and what a lease protects, `Pause` what a paused automation
  does not do, `Provenance` what rows say of each other, and `Theorems` states the results for every reachable world.
  `Witnesses` builds, from the empty control plane, the worlds that show where the code promises less.
- **Investigations.** `Investigation` (workflow rules), `Registry` (reservations, optimistic updates, version history),
  `Launches` (concurrent launchers, operators, and the unattended investigator with its journal slot and review queue,
  stopped between any two steps), `Submission` (what each step of a launch writes, and a launch nothing disturbs),
  `Investigator` (what each move of the investigator does).
- **Retention.** `Retention` (selection), `Detachment` (selection against what the database lets go), `Applying`
  (a plan applied by several appliers, stopped between any two steps).
- **VM host.** `Husker` (retries and upload), `Download` (ranged reads).
- **Authoring.** `Steps` (checks and cycle search), `Compile` (selection, conflicts, dependencies, gate).
- **Digest.** `Digest` (the stream and its parser). `Basics`, `Collections`, `Order` and `Text` are shared.

What is assumed:

- A transaction, or a statement outside one, is one atomic step. Row locks and isolation levels are not modelled; in
  particular the `forbid` check of a claim is taken to be atomic with the claim.
- There is one clock, shared by the database and the processes, and it does not go back.
- Random identifiers are parameters. Drawing one that exists fails on the primary key.
- A claim is held by one worker, who holds one claim at a time, under a worker name no other process uses.
- `World.Legal`: whoever deploys hands over a non-empty artifact location and a content hash that determines the
  manifest it was computed over; a submitted source location is not empty.
- `Schedules.StrictNext`: the cron library answers with a later time than the one asked about.
- `Occurrences.Stamps`, where runs of a schedule are counted: a firing time formatted with nanoseconds in UTC is not empty
  and differs for different times.
- Automation and trigger names hold no colon. A trigger named `manual` or `deferred` shares its event keys with manual
  and deferred runs, and the theorems about keys speak of the shared key.
- Cloud, host and guest behaviour, lost replies and crashes are arbitrary inputs; the host does not act on a request it
  answers with 429 (section 4 of RFC 6585), and GET and DELETE may be repeated (section 9.2.2 of RFC 9110).

Where the code gives less than one might expect, the model follows the code and says exactly how much less, with an
input that shows it:

- A lease renewal ignores expiry: `Theorems.ForbidExactly`, `Exclusion.RenewExact`, `Witnesses.LateRenewalIntrudes`.
- A rollback may strand an approval: `Approvals.RollbackAnswerable`, `Witnesses.RollbackStrands`.
- A firing may find its key used and make no run: `Theorems.FiringMakesItsRun`, `Witnesses.FiringSwallowed`.
- The cap of six may drop any chosen operation, the primary one included: `Compile.CompileSteps`,
  `Compile.PrimaryDropped`.
- A retention plan claimed again may record as skipped what its first applier removes: `Applying.MisreportsExactly`.
- A guest that stops reporting the total size may exceed the download limit: `Download.LimitHolds`,
  `Download.LimitExceeded`.
- The five-minute cap of the retry delay is never reached: `Theorems.RetriesBackOff`.

## Model

| member | source | states |
|---|---|---|
| StoreObject.Store.AcquireRun | internal/database/database.go:750-816 | Nothing is claimed exactly when there is no candidate; otherwise the one available earliest, of several the one created earliest, is claimed, and the claim carries the run's own revision, that revision's manifest and location, the next attempt number and the state as it stands |
| StoreObject.EarliestCandidate | internal/database/database.go:754-772 | The scan over runs finds the first candidate by availability and then creation, or none exactly when none exists |
| StoreObject.Store.RenewRunLease | internal/database/database.go:821-831 | Told true exactly while the row is running and names the worker; then the lease runs until the new expiry and nothing else changed; told false, nothing changed |
| StoreObject.Store.CompleteRun | internal/database/database.go:833-939 | Accepted exactly while the lease is held, on the snapshotted state, with nothing asked for existing already; then outcome, state, deferral, approval and notices are there in the run's own words, and otherwise nothing changed |
| StoreObject.WriteState | internal/database/database.go:850-871 | The optimistic write succeeds exactly on the snapshotted version and advances it by one |
| StoreObject.EnqueueDeferred | internal/database/database.go:941-970 | A deferral inserts its event and run together, and is refused when either exists |
| StoreObject.Announce | internal/database/database.go:924-937 | The outbox gains exactly the requested notices, each once |
| StoreObject.Store.FailRun | internal/database/database.go:977-1015 | Accepted exactly while the lease is held; before the last attempt the run is queued for now plus the attempt's delay, from the last attempt on it is failed and announced; otherwise nothing changed |
| StoreObject.Store.IngestEvent | internal/database/database.go:559-588 | Inserts event and run once per key; a repeated key answers with the run it made first |
| StoreObject.EnqueueEvent | internal/database/database.go:590-680 | The same on a transaction's view, for open triggers of the active revision only |
| StoreObject.Store.EnqueueManualRun | internal/database/database.go:1342-1468 | The replay check comes first, then the active revision and the expected revision |
| StoreObject.Store.EnqueueDueSchedules | internal/database/database.go:682-748 | The earliest due triggers up to the limit are fired one after another, all or none |
| StoreObject.DueTriggers | internal/database/database.go:689-725 | The batch is distinct, ordered by firing time, and leaves a due trigger out only when full of earlier ones |
| StoreObject.FireDue | internal/database/database.go:727-743 | One firing advances its trigger, enqueues its occurrence, and leaves every other trigger row alone |
| StoreObject.Store.SetAutomationEnabled | internal/database/database.go:1265-1340 | Told true, the switch is at the asked position and a resumed automation's enabled schedules wait for their first time from now, nothing else moved; otherwise nothing changed |
| StoreObject.Resume | internal/database/database.go:1285-1327 | Exactly the enabled schedules of the automation get their next time; refused exactly when one has none |
| StoreObject.Store.Deploy | internal/database/database.go:333-451 | Provenance check, guard, upserts, triggers, secrets, switch and deployment row commit together or not at all; then the automation runs the revision with exactly the declared triggers, switched on or off as before, and nothing comes to dangle |
| StoreObject.ReplaceTriggerRows | internal/database/database.go:478-507 | Accepted exactly when trigger ids are used once and every enabled schedule has a next time; then the automation's rows are exactly the declared ones and other rows stay |
| StoreObject.ReplaceSecretRows | internal/database/secrets.go:165-216 | Refused exactly when a named secret is missing; otherwise exactly the named references remain |
| StoreObject.Store.RollbackAutomation | internal/database/database.go:511-557 | Accepted exactly for a stored revision of the automation that is active already or whose triggers can be installed; then it is active with exactly its triggers, no other row changed, and nothing comes to dangle; refused or repeated, nothing changed |
| StoreObject.Store.ResolveApproval | internal/database/approvals.go:79-185 | Replay, expiry, revision and response checks in the code's order; an accepted answer stores the status its action means, the validated response and one continuation on the approval's revision together |
| StoreObject.ValidateApprovalResponse | internal/database/approvals.go:187-254 | The loops compute the declarative meaning of an acceptable response, whatever the field order |
| StoreObject.NormalizeFields | internal/database/approvals.go:211-253 | Refused exactly when some declared field objects; otherwise exactly the kept fields, trimmed |
| Accepted.ClaimExactly | internal/database/database.go:750-816 | A claim is accepted exactly for a run due or abandoned with no unexpired rival where rivals are forbidden, and is made on the run's own revision |
| Accepted.CompleteExactly | internal/database/database.go:833-970 | A success is accepted exactly when nothing stands against it and leaves exactly what it asked for |
| Accepted.FailExactly | internal/database/database.go:977-1015 | A failure is accepted exactly from the lease's holder and requeues after the attempt's delay or ends the run |
| Accepted.ReleaseExactly | internal/database/database.go:1023-1036 | A run handed back is available at once |
| Accepted.IngestExactly | internal/database/database.go:590-680 | The run made is on the active revision, with its policy and attempts; a webhook's waits for the delivery delay, every other is available at once |
| Accepted.IngestAccepts | internal/database/database.go:590-680 | A run is made exactly when automation and trigger are on, the trigger belongs to the active revision, and the key is new |
| Accepted.ManualExactly | internal/database/database.go:1342-1468 | A manual run is on the active revision, the expected one if one is named, and available at once |
| Accepted.ManualAccepts | internal/database/database.go:1342-1468 | It is made exactly when a revision is active, is the expected one, and the key is new, paused or not |
| Accepted.AnswerExactly | internal/database/approvals.go:79-185 | Approve approves and reject rejects, with the validated response and one continuation; a refused answer changes nothing but an expiry |
| Accepted.AnswerAccepts | internal/database/approvals.go:79-185 | An answer is accepted exactly on a pending, unexpired record of the named and active revision, with a valid response and one of the two actions |
| Accepted.AnswerRepeats | internal/database/approvals.go:98-113 | An answer to a closed record succeeds exactly when it repeats the recorded one, key and content, and never changes anything |
| Accepted.ResponseAccepts | internal/database/approvals.go:187-254 | A response is valid exactly when its action is offered, only fillable declared fields are supplied, and each field has a value of its kind within its limits where one is required |
| Accepted.ResponseExactly | internal/database/approvals.go:211-253 | The response kept is what was supplied or declared, text without its surrounding space |
| Accepted.FirstAction | internal/database/approvals.go:188-197 | Of several actions with one name the first decides |
| Accepted.LastDeclared | internal/database/approvals.go:198-201 | Of several fields with one name the last counts |
| Accepted.ExpireExactly | internal/database/approvals.go:16-23 | Exactly the pending approvals whose time has come expire |
| Accepted.EnableExactly | internal/database/database.go:1265-1340 | Refused exactly for an unknown automation or a schedule that has no next time; a repeated switch changes nothing |
| Accepted.DeployActivates | internal/database/database.go:333-451 | An activation makes the revision active, keeps a pause, and closes exactly the deployment it is for |
| Accepted.DeployAccepts | internal/database/database.go:333-451 | An activation is accepted exactly when provenance, hash, guard, identity, schedules, secrets and the deployment's claim all hold |
| Accepted.DeployBinds | internal/database/secrets.go:165-216 | After an activation the revision refers to exactly the secrets its manifest names |
| Accepted.SubmitExactly | internal/database/database.go:1470-1516 | A submission under a new key waits with its package; a used key changes nothing |
| Accepted.RetryExactly | internal/database/database.go:1929-1973 | A retry is made exactly of a failed or cancelled deployment that still has its package, under a new key, and takes the package along |
| Accepted.ClaimBuildExactly | internal/database/database.go:1671-1713 | A deployment is claimed exactly when nobody asked to cancel it and it waits or its lease ran out |
| Accepted.RenewBuildExactly | internal/database/database.go:1715-1725 | The lease moves exactly for its owner on an uncancelled deployment under way |
| Accepted.StageExactly | internal/database/database.go:1727-1747 | A stage is recorded exactly by the owner, before activation began |
| Accepted.StepExactly | internal/database/database.go:1749-1822 | A step moves the deployment to its stage exactly for the owner |
| Accepted.CancelExactly | internal/database/database.go:1862-1895 | A cancellation is accepted exactly before the end, and ends a waiting deployment at once |
| Accepted.EndExactly | internal/database/database.go:1897-2016 | The owner ends a cancelled deployment cancelled and any other failed |
| Accepted.DeleteSecretExactly | internal/database/secrets.go:135-163 | A secret is deleted exactly when it exists and no revision refers to it |
| Accepted.PutSecretExactly | internal/database/secrets.go:96-133 | Storing a secret adds its name and nothing else |
| Guarantees.InvNext | internal/database/database.go:333-1036 | Every legal action of every actor keeps the invariant |
| Guarantees.InvReach | internal/service/worker.go:51-113 | So does every schedule of actions |
| Theorems.OutcomeOnce | internal/database/database.go:833-1036 | One outcome per attempt, one final outcome per run, closed exactly when it is recorded, retries bounded by the allowed attempts |
| Theorems.ClaimCarriesItsRevision | internal/database/database.go:750-816 | In every reachable world a claim is for the run's own revision, at its recorded location, with its secrets at hand, whatever was activated since |
| Theorems.LeaseIsRespected | internal/database/database.go:754-831 | Until its lease runs out a claimed run is nobody else's, and is ended only by an outcome of this attempt |
| Theorems.RetryWaits | internal/database/database.go:977-1015 | A requeued run is not touched or claimed before its delay has passed, over every schedule |
| Theorems.DeferralWaits | internal/database/database.go:941-970 | A deferred run is not touched or claimed before the time asked for |
| Theorems.AlwaysTold | internal/database/database.go:662-680 | In every reachable world a run has its revision's policy and attempts, and an answered approval the status its action means |
| Theorems.OnlyLatestAttempt | internal/service/worker.go:51-91 | An outcome write takes effect only for the run's latest attempt; a lost lease changes nothing |
| Theorems.EffectsOnce | internal/database/database.go:872-939 | Each success has its deferred run, its approval and its notices, and no second ones |
| Theorems.NoEffectWithoutOutcome | internal/database/database.go:872-1015 | Every approval was asked for by a recorded success, and every notice announces something that happened: a failure, a requested notification, an approval opened or answered |
| Theorems.RetriesBackOff | internal/database/database.go:2238-2241 | The retry delay doubles from one second and stays at 256 seconds |
| Theorems.EventsMatchRuns | internal/database/database.go:590-680 | Events and runs are in bijection and a key has at most one of each |
| Timing.WaitsUntil | internal/database/database.go:754-772 | A run queued for a time is left alone by every actor until that time |
| Timing.LeaseHolds | internal/database/database.go:754-831 | A lease keeps its run with its worker until it runs out or the attempt's outcome is written |
| Theorems.KeyAnswersForever | internal/database/database.go:631-646 | A run recorded under a key is the one run of that key in every later world |
| Permanence.GrowsReach | internal/database/database.go:590-1036 | Over every schedule runs, events, approvals, answers and notices stay what they are |
| Theorems.RedeliveryCreatesNothing | internal/database/database.go:631-646 | A delivery that was accepted, repeated after any schedule of actions, changes nothing, and while its trigger is open is answered with the first run |
| Theorems.ManualReplayCreatesNothing | internal/database/database.go:1348-1362 | The same for a manual run, whatever became of the automation since |
| Theorems.NothingDangles | internal/database/retention.go:284-341 | Active revisions and revisions of live runs have a recorded artifact, and every revision that has one has all its secrets |
| Theorems.RollbackNeverDangles | internal/database/database.go:511-557 | A rollback succeeds only onto a revision that can run |
| Theorems.StateIsSerial | internal/database/database.go:783-790 | Committed state is a chain, each version computed from the one before, authored by the successful stateful runs in order |
| StateChain.ChainIsSequential | internal/database/database.go:850-871 | Such a chain equals running its authors one after another |
| Theorems.SuccessIsOneActivation | internal/database/database.go:418-437 | A deployment succeeded exactly when one activation is recorded for it, with its revision |
| Theorems.ActivationIsFenced | internal/database/database.go:326-451 | Only the latest claim of an uncancelled deployment activates, and then switches the active revision |
| Theorems.CancellationWins | internal/database/database.go:1862-1924 | After an accepted cancellation the deployment is never activated and can only end cancelled |
| Theorems.CancelKeeps | internal/service/deployment_worker.go:40-135 | A requested cancellation holds through every later schedule |
| Theorems.ForwardNext | internal/database/database.go:1671-1806 | No action moves a deployment back out of a terminal stage or withdraws a cancellation |
| Theorems.AnsweredOnce | internal/database/approvals.go:141-170 | An answered approval has exactly one continuation, pinned to its revision; an unanswered one has none |
| Theorems.AnswerReplays | internal/database/approvals.go:98-118 | An answer needs an answerable approval; repeated with the same key and content after any schedule of actions it succeeds, finds the same record and continuation, and creates nothing |
| Theorems.AnswerMeansAction | internal/database/approvals.go:160-170 | An accepted approve is recorded as approved and reject as rejected, with the validated response, in every later world |
| Approvals.ApprovalMoves | internal/database/approvals.go:79-185 | A record stays, expires once its time has come, or is answered while answerable |
| Approvals.AnswersStand | internal/database/approvals.go:98-118 | A record that left pending never changes again |
| Approvals.AnswerableUntil | internal/database/database.go:95-138 | An approval stays answerable exactly until it is answered, its time comes, a rollback leaves its revision, or a job allowed to strand it activates another; each by the guards of the transaction |
| Approvals.RollbackAnswerable | internal/database/database.go:511-557 | A rollback ends answerability exactly when it leaves the approval's revision for another one it accepts |
| Approvals.DeployAnswerable | internal/database/database.go:95-138 | A deployment does exactly when a job allowed to strand approvals activates another revision |
| Witnesses.RollbackStrands | internal/database/database.go:511-557 | A reachable world in which a rollback strands an approval nobody decided to strand |
| Theorems.DeploymentsStrandNothing | internal/database/database.go:95-138 | A deployment without the strand decision keeps every answerable approval answerable |
| Theorems.FiringsAreIterates | internal/database/database.go:682-748 | Trigger rows follow the active revision; firings are consecutive iterates between restarts, rise strictly across them, and have a run each, no two the same |
| Theorems.FiringMakesItsRun | internal/database/database.go:727-743 | A firing makes a run of its own exactly when its key was not used before |
| Theorems.ScheduledRunsAreFirings | internal/database/database.go:590-748 | Where nothing else uses a schedule's key, its runs are its firings, one each and no others, and the next firing makes its own |
| Occurrences.OwnNext | internal/database/database.go:590-748 | No other action puts an event under the key of such a schedule |
| Witnesses.FiringSwallowed | internal/database/database.go:631-646 | A reachable world in which a firing makes no run, because a webhook once had the trigger's name and was delivered that stamp |
| Theorems.PassIsFirings | internal/database/database.go:727-746 | A pass is its firings one after another |
| Pause.SwitchNext | internal/database/database.go:1265-1340 | Only the operator's switch pauses or resumes an automation; deployments and rollbacks keep it as it is |
| Pause.PauseHolds | internal/database/database.go:590-725 | Until it is resumed a paused automation takes in no event through a trigger and fires nothing, over every schedule |
| Theorems.ForbidHolds | internal/database/database.go:754-782 | With timely renewals an automation never has two unexpired forbid runs, after any part of any schedule |
| Theorems.ForbidExactly | internal/database/database.go:754-831 | A schedule keeps that after each of its parts exactly when none of its renewals is late with another run holding on |
| Exclusion.RenewExact | internal/database/database.go:821-831 | A renewal keeps that exactly when it is not late with another run holding on |
| Witnesses.LateRenewalIntrudes | internal/database/database.go:821-831 | A reachable world in which a late renewal leaves two unexpired forbid runs |
| Investigation.TransitionExtends | internal/domain/investigation.go:91-167 | An accepted transition keeps identity and evidence, does not restart the workflow, and never leaves a terminal state |
| Registry.Store.Reserve | internal/database/investigations.go:73-107 | A new valid request on a free subject is reserved once; a replay creates nothing; a different request for an open subject conflicts; every history and both indexes survive |
| Registry.Store.Update | internal/database/investigations.go:109-138 | Accepted exactly on the expected version, for an allowed state with a task nobody else has; then it is the next version and every other record and version stays; refused, nothing changed |
| Registry.ReserveSound | internal/database/investigations.go:73-107 | Reserving keeps every history and both unique indexes |
| Registry.UpdateSound | internal/database/investigations.go:109-149 | So does updating |
| Registry.UpdateExactly | internal/database/investigations.go:109-149 | Accepted exactly on the expected version, for an allowed state with a free task, and then that state is the next version |
| Registry.VersionIsSound | internal/domain/investigation.go:89-167 | Every version binds task and evidence, and a takeover, a completion and an abandonment bring what they ask for |
| Registry.MoveIsOpen | internal/domain/investigation.go:91-109 | With the evidence its target asks for, a move is accepted exactly when the workflow lists it |
| Registry.HistoryExtends | internal/domain/investigation.go:89-167 | Over any span of versions identity, base and times only grow and terminal states end the history |
| Registry.ReviewedFirst | internal/domain/investigation.go:91-109 | Every completed or local version comes after a version in review |
| Registry.LocalSnapshotFixed | internal/domain/investigation.go:152-159 | An unbroken local takeover rests on one snapshot |
| Launches.HistoriesKept | internal/database/investigations.go:109-149 | In every reachable registry version n was validated against n-1 and no subject or task is open twice |
| Launches.SubmittedOnce | scripts/investigation.py:190-208 | No request is submitted twice, over all launchers, crashes, lost replies and reruns |
| Launches.SubmissionIsDurable | scripts/investigation.py:194-202 | When a submission starts the record has left reserved, and the request stays spent in every later system |
| Launches.NothingForgotten | deploy/investigator/worker.py:161-249 | Between any two steps each launched request is in the slot or the queue, or was settled |
| Launches.SubmitsAlone | deploy/investigator/worker.py:170-225 | The investigator submits only its slot's request, and only once all its others got beyond running |
| Launches.InvNext | deploy/investigator/worker.py:161-284 | Every step of every process keeps the registry, launch and journal invariants |
| Submission.LooksExactly | scripts/investigation.py:190-193 | A launch goes on exactly when no record of its subject stands against it |
| Submission.PostsExactly | scripts/investigation.py:194-197 | The record is created as reserved exactly for a valid new request on a free subject, and only a launcher told so goes on |
| Submission.MarksExactly | scripts/investigation.py:198-200 | The uncertainty is the next version exactly when the reservation is still the launcher's own, and only a launcher told so submits |
| Submission.SubmitsExactly | scripts/investigation.py:201-202 | One submission is made, and followed up exactly when it was answered |
| Submission.RecordsExactly | scripts/investigation.py:203-204 | An answered submission leaves the record running with that task and URL at attempt one exactly when the record is still the launcher's own and the task can be attached |
| Submission.LaunchSucceeds | scripts/investigation.py:190-204 | Undisturbed, a launch on a clear subject submits once and ends running with the cloud's task |
| Submission.InvestigatorLaunches | deploy/investigator/worker.py:161-229 | Undisturbed, an investigator with nothing pending takes up a clear subject, slot first, and ends the same |
| Investigator.BeginsWithFiles | deploy/investigator/worker.py:161-168 | A run starts from what the slot and the queue hold |
| Investigator.ReviewsExactly | deploy/investigator/worker.py:239-247 | A request leaves the queue exactly when it is settled |
| Investigator.QueueIsRewritten | deploy/investigator/worker.py:248-249 | The queue file then holds what remains, and the slot comes next |
| Investigator.DecidesExactly | deploy/investigator/worker.py:177-187 | A slot is given up exactly when its request is settled, needs input or failed, in the last two cases through the queue |
| Investigator.ClearsSlot | deploy/investigator/worker.py:188-189 | Giving up the slot empties it and nothing else |
| Investigator.ChoosesExactly | deploy/investigator/worker.py:210-225 | A subject takes the slot exactly when it has no record, and is launched from there |
| Investigator.ObservationMeans | deploy/investigator/worker.py:251-271 | An idle task asks for input, a failed one for the operator, a task at work again runs; the task and its base stay |
| Investigator.UnchangedIsQuiet | deploy/investigator/worker.py:251-258 | Nothing is written exactly when the cloud reports what is recorded |
| Retention.GroupRecords | internal/service/retention.go:221-255 | Groups summarize exactly the records of each path |
| Retention.MarkNewest | internal/service/retention.go:291-333 | The newest paths of every owner are kept: a rival left out is outnumbered by kept ones as new, a kept one leads for some owner |
| Retention.SelectRetentionCandidates | internal/service/retention.go:220-289 | Exactly the unheld, old, unkept paths are listed, sorted and once each, with their records, automations and reason |
| Retention.OwnersKeepNewest | internal/service/retention.go:308-333 | Whatever is deletable leaves its owners enough paths as new that are not |
| Retention.NewestIsLatest | internal/service/retention.go:221-255 | The age of a path is that of its newest record |
| Retention.ResourcesAre | internal/service/retention.go:221-255 | The resources of a path are the identifiers of its records |
| Detachment.ArtifactDetachedExactly | internal/database/retention.go:304-338 | The database detaches an artifact exactly when no listed record holds it, and releases exactly the secret references of the revisions detached |
| Detachment.SourceDetachedExactly | internal/database/retention.go:292-303 | The same for sources |
| Detachment.RetryableIsAccepted | internal/database/database.go:1929-1973 | A source counts as retryable exactly when a retry of its deployment would be accepted |
| Applying.StatusIsFinal | internal/database/retention.go:224-243 | A recorded item status never changes again, whatever any applier does |
| Applying.AppliedIsDecided | internal/service/retention.go:74-141 | A plan is applied only with every item decided; what is recorded deleted was detached and removed; storage not recorded anew is removed at most once |
| Applying.SkippedIsUntouched | internal/service/retention.go:98-136 | In a plan claimed once, a skipped item was neither detached nor removed |
| Applying.ItemDecided | internal/service/retention.go:98-136 | An item is recorded skipped when its location is in use, deleted when its storage was removed, failed when it could not be |
| Applying.AppliesAlone | internal/service/retention.go:74-141 | An applier left alone decides every item as it finds it and applies the plan |
| Applying.MisreportsExactly | internal/database/retention.go:193-222 | A plan can come to record as skipped what was removed exactly when it has an item and outlives a lease |
| Applying.ReclaimedSkips | internal/database/retention.go:193-222 | A schedule of two claims after which an item is recorded skipped although its storage was removed |
| Applying.InvNext | internal/service/retention.go:74-141 | Every step of every applier keeps the invariant behind these |
| Husker.RetriedExactly | internal/runner/husker.go:657-687 | Exactly the repeatable errors are retried, within attempts, context and deadline, after the announced wait, or one, two, four and eight seconds, of at most a minute |
| Husker.RepeatedIsOnce | internal/runner/husker.go:614-620 | Repeating a GET or DELETE has the effect of sending it once |
| Husker.RemovalIsWhole | internal/runner/husker.go:584-596 | Removing a machine takes its files and no other's |
| Husker.Host.DoJSON | internal/runner/husker.go:620-644 | Success took effect exactly once, failure at most once, and a POST is resent only after a refusal |
| Husker.Host.UploadFile | internal/runner/husker.go:476-487 | Success leaves exactly the data; failure leaves the old file or a prefix; no other file is touched |
| Download.ReadFileLimited | internal/runner/husker.go:503-554 | The loop ends for every guest with the specified result |
| Download.LimitHolds | internal/runner/husker.go:524-532 | Less than twice the limit for every guest, and more than the limit exactly when the answer that ended the download left out the size reported before and was too long |
| Download.SteadyWithinLimit | internal/runner/husker.go:524-532 | Within the limit for a guest that always or never reports the size |
| Download.LimitExceeded | internal/runner/husker.go:524-529 | For every limit of two or more a guest that reaches the bound |
| Download.NothingTorn | internal/runner/husker.go:533-543 | A file that changes under the read is never returned as a mixture |
| Download.ReadBack | internal/runner/husker.go:503-554 | An unchanged file is read back exactly, or refused when too large |
| Download.ReadWhole | internal/runner/husker.go:524-529 | So is the single answer of a guest that never reports sizes |
| Download.ReadFile | internal/runner/husker.go:503-554 | Through the retrying client a guest file is read exactly, or a request is lost, or it is too large; the guest is not changed |
| Download.UploadThenRead | internal/runner/husker.go:476-554 | What an upload left in the guest is what is read back |
| Steps.HasCycle | internal/authoring/types.go:213-238 | The search reports a cycle exactly when the last declarations have one, in any order |
| Steps.Search.Visit | internal/authoring/types.go:215-231 | A visit ends; it finds a real cycle, or extends a topological order by what it visited |
| Steps.ValidateSteps | internal/authoring/types.go:178-239 | The reported problems are exactly the ones there are |
| Steps.PlacedIsAcyclic | internal/authoring/types.go:204-212 | A list that passes the position check has no cycle |
| Steps.WellFormedPasses | internal/authoring/types.go:178-239 | A well-formed list passes every check |
| Steps.PassingIsWellFormed | internal/authoring/types.go:178-239 | And only a well-formed list does |
| Compile.SelectOperations | internal/authoring/compile.go:95-113 | The first six chosen operations by stage and id; a chosen one missing comes after all of them |
| Compile.IncludedExactly | internal/authoring/compile.go:103-112 | A chosen operation is kept exactly when fewer than six chosen ones come before it |
| Compile.ResolveOperationConflicts | internal/authoring/compile.go:115-133 | Of a competing update and clear exactly the loser goes |
| Compile.AddDependencies | internal/authoring/compile.go:28-37 | An operation depends on exactly the earlier stages the answers name |
| Compile.CompiledWellFormed | internal/authoring/compile.go:28-51 | Compiled steps are well formed for every usable catalog and every answer |
| Compile.InsertApproval | internal/authoring/compile.go:196-214 | Nothing before the gate writes, the gate waits for all of it, all after waits for the gate, nothing else changes |
| Compile.GatedWellFormed | internal/authoring/compile.go:196-214 | The gate keeps the list well formed |
| Compile.CompiledRenders | internal/authoring/compile.go:18-51 | The compiled steps are exactly the operations the answers and the cap leave, each with exactly the dependencies the answers name |
| Compile.GatedRenders | internal/authoring/compile.go:196-214 | The gate changes neither the operations nor their dependencies on each other |
| Compile.CompileSteps | internal/authoring/compile.go:18-54 | The steps other than the gate are exactly the chosen operations with fewer than six chosen ones ahead, less the loser of an update and a clear, and each depends on exactly the earlier-stage ones the answers name; the graph passes all checks, is gated exactly when asked or destructive, and holds the primary operation exactly when fewer than six chosen ones come before it |
| Compile.PrimaryDropped | internal/authoring/compile.go:109-111 | Answers over the shipped catalog for which the primary operation is dropped |
| Compile.CatalogIsUsable | internal/authoring/catalog.go:15-53 | The shipped catalog is usable |
| Digest.ParseBack | internal/provenance/provenance.go:241-255 | The parser takes one encoded file off any stream |
| Digest.ParseAllBack | internal/provenance/provenance.go:235-256 | The parser inverts the encoder |
| Digest.StreamIsInjective | internal/provenance/provenance.go:235-256 | Lists with the same stream are equal |
| Digest.DigestStream | internal/provenance/provenance.go:192-258 | The stream is that of the tree's files sorted by path |
| Digest.SameStreamSameTree | internal/provenance/provenance.go:235-256 | Trees with the same stream are equal |

## Left out

- StoreObject.Store.Deploy: whether a recorded tool environment is complete is an uninterpreted test, and an error names the failing part rather than the failing declaration.
- StoreObject.ReplaceSecretRows: the purpose of a reference is not modelled; purposes are distinct whenever trigger ids are, so their part in the primary key refuses nothing more.
- StoreObject.Store.IngestEvent: which run answers a repeated key is fixed only under the bijection of events and runs, which every reachable world has.
- StoreObject.Store.ResolveApproval: the same bijection fixes which run a replay finds.
- Compile.CompileSteps: of the draft only the steps are modelled, without their inputs and outputs.
- Digest.DigestStream: file contents are taken to have the size the header states; a file that changes while it is hashed is not modelled.
- Launches.NothingForgotten: dry runs, which write nothing, and hand edits of the journal files are not modelled.
- Retention plan creation, storage inspection and byte estimates, and files on disk racing a concurrent build.
- The answer a repeated deployment submission gets, deployment steps and logs, run logs and results, audit rows, labels and descriptions.
- Row locks, SKIP LOCKED, isolation levels and the SQL text.
- Liveness: a deployment whose cancellation was requested and whose worker is gone stays where it is.
- HTTP handlers, authentication, webhook signatures, notification delivery, the listeners and the workspace pages.
- SHA-256, Ed25519, AES-GCM, tar, gzip, JSON, YAML, cron and time-zone parsing; the cron library is an uninterpreted function.
- VM provisioning, tool preparation, process handling and file-system walks.
- Manifest, configuration and notification route validation, and log redaction.
- Retries inside Go's HTTP transport, which resends a request only when none of it was written.
