# Verification models of the SuperFlash monitoring backend

These Dafny modules model the parts of the backend that keep state over time, and prove what they keep: the channel
synchroniser and its category history, the onboarding protocol, the exclusion of collections and their history, the
alert life cycle, cursor pagination, the sample store, the removal of servers and the capture of remote output.

Two kinds of modules go together. Specification modules describe each operation as a function of its inputs and of the
tables, and prove the main results as lemmas about every input, every sequence of operations or every interleaving.
Modules named after a class or service hold the objects whose methods update their fields step by step, as the program
does; each of their methods is proved to leave exactly the state that the specification function gives.

- **Channel synchroniser**: `CategoryHistory`, `ChannelSync`, `SyncPass`, `ChannelLife`, `ActiveSet`, `TrackedRows`,
  `ObservedRows` (what observed rows hold), `PassReport` (errors, counters and seen sets), `SyncIdempotence`; objects in
  `ChannelRepository` and `CollectionService`. Which savepoints fail is part of a pass and arbitrary.
- **Onboarding**: `OnboardingRow` (the row, its writers and the column-wise commit), `OnboardingJob` (a transition system
  with any number of workers, requests and rollback jobs), `OnboardingWorker` (the worker as an object),
  `OnboardingReplies` (what a worker's flags, counts and codes say about the answers it was given), `OnboardingWrites`
  (what undisturbed requests, rollbacks and steps leave), `OnboardingSafety` (cancellation), `OnboardingPath` (progress,
  completion, endings), `OnboardingCompletion` (how soon a worker ends, and when it can still complete),
  `CancelledStatus` and `CancelledSurvival` (when the text status survives: one event, one worker, everything under way).
- **Collections**: `CollectionRuns`, `CollectionExclusion` (processes, threads, two locks, crashes), `RunHistory`,
  `RunOutcomes` (how rows end, and what the status endpoint shows), `CollectionRunner`, `RunnerRefinement` (an undisturbed
  call is a run of the protocol).
- **Alerts**: `Alerts`, `AlertLifeCycle`, `AlertService`.
- **Histories and samples**: `Pagination`, `CursorCodec`, `Base64Url`, `Decimal`, `IdentityLookup`, `SampleStore`,
  `MetricService`.
- **Servers and remote output**: `ServerRemoval`, `ServerService`, `OutputCapture`.

Rows are values inside table fields, because a savepoint or a failed commit gives back every column at once; a row's
position in its table stands for its id. Instants are integers. Everything that comes from outside (remote answers,
exceptions, which savepoint fails, the age of a row, what other sessions do in between) is a parameter, an event or part
of the state, and always arbitrary.

## Where the program does less than one might expect

The models follow the code. These statements are proved, most of them as exact conditions:

- The rows of a category history tile time exactly when every change of category is no earlier than the change before it:
  `TilesIffChangesAscend`; `BackwardClockLeavesTwoOpenIntervals` shows a log that breaks it.
- Repeating a pass changes nothing exactly when no snapshot adopts a legacy row that an earlier snapshot of the same pass
  observed under the legacy source: `IdempotentIffNoConflict`, with `ConflictExists`.
- A failed upsert protects the row with its own identity, but neither the legacy row it would have adopted
  (`FailedAdoptionRule`, `FailedAdoptionCanDeactivate`) nor an inactive row that is due to be archived
  (`ArchiveRule`, `FailedUpsertDoesNotBlockArchiving`): the second loop of `reconcile_missing` does not look at the seen set.
- After a cancel commits, one more script and two more row writes can follow: `CancelBoundsReaction` with `BoundIsReached`
  and `AboutToInstallHappens`. A cancel that had read the flag already set leaves it clear if a retry cleared it
  meanwhile: `CancelSetsFlag`.
- The text status `cancelled` can be overwritten. The events that do it are a worker's commit of another status than it
  loaded, the commit of an expiry that had read the job unflagged, a retry, a request for a rollback and the end of a
  rollback, unless the status they store is the one they had read: `EventKeepsCancelledIff`, over whole runs
  `CancelledIsHeldIff`, with `LateExpiryOverwritesCancel` as an example. A worker by itself can do it by a commit under
  way, or by `_fail` after an exception before its next look at the row: `CancelledSurvivesIff`. With any number of
  workers, requests and rollbacks under way and no further retry or rollback asked for, `CancelledSurvivesAllIff` says
  exactly when nothing can; two workers can do together what neither can alone, when one writes a code under which the
  other then fails.
- An expiry does not always stop a job. With a single worker, no retry on its way and the cancel flag clear, the worker of
  a terminal job can still complete it, if it has not already, exactly when it stands behind its last transition, or is
  between the refresh and the commit of a transition that is not followed by a demand on an answer that was bad:
  `ExpiryLeavesOpenIff`, a case of `CompletesIffOpen`, which allows the flag and a live job but also one worker only. In
  the second case the step is stored over the terminal status: `StoringRevivesTheRow`; a second worker could then go on
  from any place.
- `_running_since` stays set exactly when the setup of a collection raises: `StaysAnnouncedIffSetupFails`. Without
  PostgreSQL a second process can mark a live collection as abandoned: `RowsAreProtectedIffExclusive`.
- A listing in which an alert fires takes back an acknowledgement committed since it read the alert exactly when it had
  read the alert as resolved: `FiringKeepsAcknowledgementIff`, with `ReopeningLosesAcknowledgement` as an example, which
  also leaves the instant of the acknowledgement on an active alert.
- "Resolved exactly when `resolved_at` is set" holds for requests that do not overlap; `CommitKeepsMarkIff` says which
  overlaps break it and `OverlapBreaksMark` gives one.
- A hard delete checks and deletes at different instants. It loses nothing exactly when nothing refers to the server at the
  second, and what it can lose came in between: `StaleCheckLosesOnlyLateRows`. Onboarding audit events are not among the
  protected rows.
- The docstring at app/collectors/collection.py:61 speaks of a single final commit, but the runner's heartbeat commits
  between the phases (app/collectors/runner.py:131-133); nothing here claims that a collection is all or nothing.

## Model

| member | source | states |
|---|---|---|
| `CategoryHistory.RecordKeepsIndex` | app/repositories/channel_repository.py:430-454 | recording one more observation keeps the rows tiling time and answering every instant with the category last observed |
| `CategoryHistory.HistoryIndexesLog` | app/repositories/channel_repository.py:430-454 | over every nondecreasing log the rows tile time from the first observation, neighbours differ, only the last is open |
| `CategoryHistory.LookupIsExact` | app/repositories/channel_repository.py:430-454 | each instant from the first observation on lies in exactly one interval, which holds the last category observed by then |
| `CategoryHistory.HistoryIsRunLengthEncoding` | app/repositories/channel_repository.py:430-454 | as long as changes ascend, the rows tile time and equal the run-length encoding of the log, defined independently from the front |
| `CategoryHistory.TilesIffChangesAscend` | app/repositories/channel_repository.py:430-454 | for every log: the rows tile time iff each change of category is no earlier than the previous change |
| `CategoryHistory.BackwardClockLeavesTwoOpenIntervals` | app/repositories/channel_repository.py:430-454 | a log with a change behind the previous one leaves two open intervals of one category |
| `ChannelRepository.ChannelRepository.UpsertFromSnapshot` | app/repositories/channel_repository.py:285-349 | the whole new state of all four tables and the outcome, with adoption of legacy rows |
| `ChannelRepository.ChannelRepository.UpsertEvent` | app/repositories/channel_repository.py:374-403 | the event row of the snapshot is created or overwritten, keeping its first instant, and its id returned |
| `ChannelRepository.ChannelRepository.UpsertStream` | app/repositories/channel_repository.py:405-428 | the same for technical streams |
| `ChannelRepository.ChannelRepository.RecordCategoryChange` | app/repositories/channel_repository.py:430-454 | exactly the channel's own history changes, as one recorded observation |
| `ChannelRepository.ChannelRepository.ReconcileMissing` | app/repositories/channel_repository.py:456-500 | every row after deactivation and archiving, and the two counters |
| `ChannelRepository.ChannelRepository.DeactivateMissing` | app/repositories/channel_repository.py:467-478 | the first loop turns exactly the absent active rows of the source inactive, and counts them |
| `ChannelRepository.ChannelRepository.ArchiveExpired` | app/repositories/channel_repository.py:480-497 | the second loop archives exactly the inactive rows of the source whose grace and retention are over, and counts them |
| `CollectionService.CollectionService.SyncChannels` | app/collectors/collection.py:112-155 | tables, counters and errors after both loops, whatever savepoints fail; each counter field counts what its name says, and there is one error for each failure |
| `CollectionService.CollectionService.SyncItems` | app/collectors/collection.py:114-138 | the item loop and the seen sets with their key order |
| `CollectionService.CollectionService.UpsertInSavepoint` | app/collectors/collection.py:126-132 | a failing savepoint leaves every table as it was |
| `CollectionService.CollectionService.ReconcileInSavepoint` | app/collectors/collection.py:141-155 | one source is reconciled and counted, or its failure recorded and its rows restored |
| `SyncPass.UpsertCounts` | app/repositories/channel_repository.py:306-349 | an upsert adds a row iff it reports created, an active row iff created or reactivated, and frees an archived row iff it hit one |
| `SyncPass.PassConserves` | app/collectors/collection.py:112-155 | snapshots = synced + item failures; synced = created + updated + reactivated + unchanged; rows, active rows and archived rows change by exactly what the counters say |
| `ChannelLife.CreatedOnlyWhenUnknown` | app/repositories/channel_repository.py:293-318 | a row is created iff neither its identity nor a legacy row with its external id exists |
| `ChannelLife.UpsertKeepsIdentities` | app/repositories/channel_repository.py:293-318 | identities stay unique and rows keep id, external id and first instant; only legacy rows change source |
| `ChannelLife.UpsertKeepsLifeCycle` | app/repositories/channel_repository.py:317-331 | active iff no absence mark; inactive rows disabled and unassigned; archived rows inactive and typed so |
| `ChannelLife.PassOnRow` | app/collectors/collection.py:141-155 | the source loop, in any number of rounds, is one settling step on each row on its own |
| `ChannelLife.PassSound` | app/collectors/collection.py:112-155 | one pass keeps identities, life cycle, history and the log, and loses no row |
| `ChannelLife.RunSound` | app/collectors/collection.py:112-155 | the same over every sequence of passes with any failures; a legacy row is adopted at most once and keeps its id |
| `ChannelLife.RunHistoryIsExact` | app/repositories/channel_repository.py:430-454 | after any sequence of passes every channel's history is the run-length encoding of its successful upserts and answers every instant |
| `ActiveSet.SuccessfulUpsertsEndActive` | app/collectors/collection.py:115-155 | every row upserted with success is active at the end of the pass |
| `ActiveSet.ActiveRowsWereSeen` | app/repositories/channel_repository.py:467-478 | a row active in a successfully reconciled source was in that source's seen set |
| `ActiveSet.DeactivationRule` | app/repositories/channel_repository.py:467-478 | a pass deactivates a row iff it was active, not observed, and absent from a reconciled source |
| `ActiveSet.FailedUpsertsKeepTheirChannel` | app/collectors/collection.py:115-155 | a channel whose upsert failed is not deactivated by that pass |
| `ActiveSet.FailedAdoptionRule` | app/collectors/collection.py:115-155 | the legacy row of a failed adoption is deactivated iff the legacy source is reconciled without that external id |
| `ActiveSet.FailedAdoptionCanDeactivate` | app/collectors/collection.py:115-155 | a concrete pass in which that happens |
| `ActiveSet.UnreconciledRowsStay` | app/collectors/collection.py:115-155 | rows of sources not seen or not reconciled change only by being observed; in unseen sources only legacy rows are, by adoption |
| `ActiveSet.ArchiveRule` | app/repositories/channel_repository.py:472-497 | exactly when a pass archives a row: reconciled source, absent for the grace period, last seen as long ago as the permanent retention for permanent channels and the event retention for all others; nothing else of the row changes by it |
| `ActiveSet.PermanentChannelsAreKeptLonger` | app/repositories/channel_repository.py:485-497 | ten days after both were last seen, the default settings keep a permanent channel and archive an event channel |
| `ActiveSet.ArchivedUntilObserved` | app/repositories/channel_repository.py:317-331 | an archived row stays exactly as it is until it is observed |
| `ActiveSet.FailedUpsertDoesNotBlockArchiving` | app/repositories/channel_repository.py:480-497 | a concrete pass that archives a row in the seen set |
| `ObservedRows.ObservedRowShowsSnapshot` | app/repositories/channel_repository.py:317-331 | the row of the last successful snapshot that wrote a channel holds that snapshot, column by column, with the server its id maps to, and keeps its first instant |
| `ObservedRows.ObservedRowPointsAtEvent` | app/repositories/channel_repository.py:374-403 | it points at the event row with the identity that the snapshot gives, seen now and first seen as before, with the details of the last snapshot that names it; at none if the snapshot names none |
| `ObservedRows.ObservedRowPointsAtStream` | app/repositories/channel_repository.py:405-428 | the same for technical streams |
| `ObservedRows.ActionTellsTheChange` | app/repositories/channel_repository.py:341-372 | created iff the row is new, reactivated iff it was inactive, unchanged iff it was active and twelve named columns are as before, updated otherwise |
| `PassReport.ItemErrorsTellFailures` | app/collectors/collection.py:126-138 | one error for each failed item, naming it, and no others |
| `PassReport.SourceErrorsTellFailures` | app/collectors/collection.py:141-155 | one error for each source whose reconciliation failed, naming it, and no others |
| `PassReport.CountersTellActions` | app/collectors/collection.py:126-138 | each of the four action counters is the number of successes with that action |
| `PassReport.SeenIsExact` | app/collectors/collection.py:114-138 | the seen set of a source holds exactly the external ids of its snapshots, failed ones included |
| `PassReport.SourcesAreExact` | app/collectors/collection.py:114-141 | the sources reconciled are exactly the adapter and those that snapshots name |
| `TrackedRows.TrackAllTwice` | app/repositories/channel_repository.py:374-428 | repeating all event or stream writes of a pass leaves the table equal |
| `SyncIdempotence.RepeatIsQuiet` | app/repositories/channel_repository.py:285-454 | without an adoption conflict a repeated pass leaves all tables equal and counts every channel as unchanged |
| `SyncIdempotence.IdempotentIffNoConflict` | app/collectors/collection.py:112-155 | a pass without failures and with distinct identities is idempotent iff it has no adoption conflict |
| `SyncIdempotence.ConflictExists` | app/repositories/channel_repository.py:293-318 | a concrete pass that is not idempotent |
| `OnboardingRow.ServerOnboarding.Refresh` | app/services/onboarding_service.py:1165 | the session's copy equals the table's row |
| `OnboardingRow.ServerOnboarding.Commit` | app/database/session.py:23-26 | only changed columns are written, and the copy keeps its own values |
| `OnboardingRow.CommitsAreColumnwise` | app/database/session.py:23-26 | each column that a session changed is written, every other stays as the table has it by then |
| `OnboardingRow.ServerOnboarding.BeginTransition` | app/services/onboarding_service.py:1157-1184 | refuses terminal and cancelled jobs with their codes, else assigns the step's columns to the copy |
| `OnboardingRow.ServerOnboarding.CheckCancel` | app/services/onboarding_service.py:1201-1204 | raises iff the flag of the table is set |
| `OnboardingRow.ServerOnboarding.Fail` | app/services/onboarding_service.py:1206-1244 | silent iff its own copy was settled by cancel or expiry, else writes failed or rollback_required |
| `OnboardingRow.ServerOnboarding.Complete` | app/services/onboarding_service.py:369-389 | the columns of completion, merged into the table |
| `OnboardingRow.ServerOnboarding.RecoverStale` | app/services/onboarding_service.py:118-171 | an overdue job that is not terminal becomes cancelled or failed, according to the flag |
| `OnboardingRow.ServerOnboarding.Cancel` | app/api/v1/onboarding.py:211-223 | a job that is not terminal gets flag, status and code; others are left alone |
| `OnboardingRow.ServerOnboarding.Retry` | app/api/v1/onboarding.py:172-185 | accepted iff terminal or pending; resets status, progress, flag and code and counts the retry |
| `OnboardingRow.ServerOnboarding.AskRollback` | app/api/v1/onboarding.py:243-251 | accepted iff failed, cancelled or rollback_required |
| `OnboardingRow.ServerOnboarding.FinishRollback` | app/services/onboarding_service.py:871-917 | failed when both scripts answered well, else rollback_required |
| `OnboardingRow.ServerOnboarding.BreakRollback` | app/services/onboarding_service.py:918-922 | a failing connection leaves rollback_required |
| `OnboardingWorker.OnboardingWorker.Advance` | app/services/onboarding_service.py:247-412 | the next line of the worker does to row and locals exactly what the transition system says |
| `OnboardingWorker.OnboardingWorker.CallServer` | app/services/onboarding_service.py:273-363 | what each remote call and its answer does to the worker |
| `OnboardingJob.WorkerKeepsForm` | app/services/onboarding_service.py:272-389 | every step keeps the evidence a worker must have had to be where it is |
| `OnboardingSafety.OnlyRetryClearsFlag` | app/api/v1/onboarding.py:172-185 | an event clears the cancel flag iff it commits a retry that had read it set |
| `OnboardingSafety.CancelSetsFlag` | app/api/v1/onboarding.py:211-223 | after a cancel's commit the flag is set iff it was set before or had been read clear |
| `OnboardingSafety.FlagStaysUntilRetry` | app/api/v1/onboarding.py:171-223 | the flag stays set through every sequence of events without a retry's commit |
| `OnboardingSafety.FlaggedStep` | app/services/onboarding_service.py:1157-1244 | with the flag set every step of a worker is paid from the scripts and writes it had left |
| `OnboardingSafety.CancelBoundsReaction` | app/services/onboarding_service.py:272-389 | until the next retry: at most one more script and two more writes, no completion if the last checkpoint is ahead, no connection if the worker had not begun |
| `OnboardingSafety.LateWorkersStayIdle` | app/services/onboarding_service.py:272-389 | a worker started while the flag is set connects to nothing, runs nothing and never completes |
| `OnboardingSafety.BoundIsReached` | app/services/onboarding_service.py:283-313 | from every state where a worker is about to store the installation step, a cancel is followed by one script, two writes and status rollback_required |
| `OnboardingSafety.AboutToInstallHappens` | app/services/onboarding_service.py:272-284 | such a state is reached from the start |
| `OnboardingReplies.InstalledFlagIsExact` | app/services/onboarding_service.py:283-313 | over every run a worker has `installed` set iff its exporter check was answered badly and its installation well |
| `OnboardingReplies.RollbackIffInstalled` | app/services/onboarding_service.py:391-412 | a failing worker commits rollback_required iff it installed, failed otherwise, and no other step of a worker writes rollback_required |
| `OnboardingReplies.CompletionWasAnswered` | app/services/onboarding_service.py:272-389 | a worker that completed was answered on every call, and well on firewall, exporter check, URL, probe and on the installation unless none was needed |
| `OnboardingReplies.ScriptsAreCounted` | app/services/onboarding_service.py:283-331 | over every run the scripts started by a worker are those of its installation call, unless nothing was to do, and of its firewall call; it connected iff that call was made |
| `OnboardingReplies.WritesAreCounted` | app/services/onboarding_service.py:1157-1244 | a step of a worker changes the row only if it is counted as a write |
| `OnboardingReplies.StoredStepTellsTheCheck` | app/services/onboarding_service.py:1157-1184 | the last successful step moves on with every transition but those after a bad exporter check, firewall or verification answer |
| `OnboardingReplies.FailureNamesItsCause` | app/services/onboarding_service.py:272-412 | over every run the code with which a worker fails names the answer, exception, flag or terminal row that made it fail |
| `OnboardingWrites.RequestAlone` | app/api/v1/onboarding.py:160-260 | what a whole cancel, removal, retry, rollback request or poll leaves in the row when nobody interferes, expiry first, column by column; workers and tasks that it starts |
| `OnboardingWrites.RollbackAlone` | app/services/onboarding_service.py:871-922 | what a whole rollback task leaves |
| `OnboardingWrites.WorkerAlone` | app/services/onboarding_service.py:1157-1244 | what each commit of a worker leaves in a row that is as it loaded it, column by column |
| `OnboardingWrites.LoadLine` | app/services/onboarding_service.py:247-271 | the worker gets past its first line iff the job and its server are found |
| `OnboardingPath.CompletionIsEarned` | app/services/onboarding_service.py:272-389 | a worker that completed had connection, prechecks, firewall, exporter check, inventory, URL and Prometheus probe succeed |
| `OnboardingPath.CompletedRowsAreEarned` | app/services/onboarding_service.py:272-389 | in every reachable state a row that is completed or at 100 was completed by such a worker |
| `OnboardingPath.TableOrder` | app/services/onboarding_service.py:53-63 | the program enters the steps in the order of the progress table |
| `OnboardingPath.PathFollowsTable` | app/services/onboarding_service.py:272-412 | one worker, no retry: each event keeps the progress or moves it to the next entry of the table; the row shows how far the worker is; a finished worker leaves a terminal row |
| `OnboardingPath.InstalledWorkersEndWell` | app/services/onboarding_service.py:1206-1231 | a worker that installed ends completed, in rollback_required, or on a row already terminal by cancel or expiry |
| `OnboardingPath.TerminalBeforeLastTransitionHolds` | app/services/onboarding_service.py:1165-1170 | a job that is terminal while its worker has the last transition still to begin, and none to store, is never completed |
| `OnboardingPath.ExpiryAfterLastTransitionIsOverwritten` | app/services/onboarding_service.py:1201-1204 | behind it, any unflagged worker completes whatever the status is |
| `OnboardingCompletion.WorkersEnd` | app/services/onboarding_service.py:247-412 | a worker is over after as many of its own steps as it had left, at most 56, whatever it meets |
| `OnboardingCompletion.CompletesIffOpen` | app/services/onboarding_service.py:1157-1244 | one worker, no retry: some course of events completes the job iff the worker's place, its last answer, the flag and the status leave completion open |
| `OnboardingCompletion.ExpiryLeavesOpenIff` | app/services/onboarding_service.py:1165-1204 | a terminal, unflagged job can still be completed iff its worker has completed, is behind the last transition, or is storing one that no failed check follows |
| `OnboardingCompletion.StoringRevivesTheRow` | app/services/onboarding_service.py:1172-1184 | a transition under way is stored over a terminal status |
| `CancelledStatus.CancelledStaysIff` | app/services/onboarding_service.py:1157-1244 | one step of a worker keeps the status cancelled iff it does not commit another status than it loaded |
| `CancelledStatus.CancelledSurvivesIff` | app/services/onboarding_service.py:1206-1231 | after a cancel the status survives all a worker may still do by itself iff no other status is being stored and no exception can come before its next look at the row |
| `CancelledStatus.EventKeepsCancelledIff` | app/api/v1/onboarding.py:172-251 | an event of any kind keeps the status cancelled iff it is none of: a worker's commit of another status, an expiry read unflagged, a retry, a rollback request, the end of a rollback (the last four only where the status stored differs from the one read) |
| `CancelledStatus.CancelledIsHeldIff` | app/services/onboarding_service.py:118-171 | in every run with any number of participants the status stays cancelled from one state to another iff no event between them is of that kind |
| `CancelledStatus.LateExpiryOverwritesCancel` | app/services/onboarding_service.py:118-171 | a run in which an expiry that had read the row before the cancel turns cancelled into failed |
| `CancelledSurvival.CancelledSurvivesAllIff` | app/services/onboarding_service.py:1157-1244 | after a cancel, with any participants under way and no retry or rollback asked for later, the status survives every course of events iff no worker is exposed, none can spoil the code under another, no retry can clear the flag under a worker behind its last transition, and no request or rollback will store another status |
| `CollectionRuns.CollectionRunRepository.MarkAbandoned` | app/repositories/collection_run_repository.py:39-63 | exactly the running rows with an old heartbeat become errors, finished at their heartbeat, and are counted |
| `CollectionRuns.CollectionRunRepository.Start` | app/repositories/collection_run_repository.py:19-32 | one running row is appended |
| `CollectionRuns.CollectionRunRepository.Heartbeat` | app/repositories/collection_run_repository.py:34-37 | only that row's heartbeat changes |
| `CollectionRuns.CollectionRunRepository.Finish` | app/repositories/collection_run_repository.py:65-96 | heartbeat, end and status of that row, and nothing else |
| `CollectionRuns.CountStaleIsExact` | app/repositories/collection_run_repository.py:39-63 | the number of rows that were running with an old heartbeat |
| `CollectionRuns.LatestRun` | app/repositories/collection_run_repository.py:98-115 | the row with the greatest start, and the greatest id among those |
| `CollectionExclusion.NextLocked` | app/collectors/runner.py:58-158 | in every step a thread holds the thread lock exactly between its first and last line and the advisory lock exactly while inside |
| `CollectionExclusion.AtMostOneInside` | app/collectors/runner.py:79-101 | at most one thread inside among all instances on PostgreSQL, at most one per process off it |
| `CollectionExclusion.ExitFreesLocks` | app/collectors/runner.py:85-101 | from any line, whatever raises, a thread gets out and gives both locks back |
| `CollectionExclusion.LocksAreAcquirable` | app/collectors/lock.py:30-65 | a crash frees the locks of its process and takes its threads and its mark; with nobody inside the locks are free |
| `CollectionExclusion.StaysAnnouncedIffSetupFails` | app/collectors/runner.py:114-158 | a collection that ends leaves `_running_since` set iff its setup raised |
| `RunHistory.HistoryHolds` | app/collectors/runner.py:114-158 | rows in chronological order; the row of a live collection is the last one and running |
| `RunHistory.InstantsAreOrdered` | app/repositories/collection_run_repository.py:19-96 | start, heartbeat and end are in order on every row, and a row has an end iff it is not running |
| `RunHistory.RowsMoveOnce` | app/repositories/collection_run_repository.py:39-96 | a row that has left running never changes again |
| `RunHistory.LiveRowsAreNeverAbandoned` | app/repositories/collection_run_repository.py:39-63 | the row of a live collection is never marked |
| `RunHistory.RowsAreProtectedIffExclusive` | app/collectors/runner.py:117-129 | that holds in every run iff the deployment has PostgreSQL or a single process |
| `RunHistory.StatusShowsLiveRun` | app/api/v1/collection.py:87-115 | the status endpoint describes the live collection while its heartbeat is fresh or its process answers |
| `CollectionRunner.DistributedCollectionLock.TryAcquire` | app/collectors/lock.py:30-51 | acquired iff the database answers and nobody holds the lock; off PostgreSQL always, without touching it |
| `CollectionRunner.DistributedCollectionLock.Release` | app/collectors/lock.py:53-65 | idempotent release |
| `CollectionRunner.CollectionRunner.Run` | app/collectors/runner.py:58-101 | refused calls touch nothing; all others give both locks back; one that sets up adds one row, a success iff it collected and an error iff it failed and could record that, with its instants, and closes exactly the stale rows |
| `CollectionRunner.CollectionRunner.RunLocked` | app/collectors/runner.py:103-158 | the same rows for the part inside the locks |
| `RunnerRefinement.CallIsRun` | app/collectors/runner.py:58-158 | an undisturbed call leaves the same rows, locks and `_running_since` as the lines of its thread in the exclusion protocol |
| `RunOutcomes.RowTellsTheEnding` | app/collectors/runner.py:140-158 | over every run, crashes included: a row is a success iff its collection came to its end, an error iff it did not and its error was recorded or another collection marked it, and running otherwise |
| `RunOutcomes.StatusIsExact` | app/api/v1/collection.py:87-115 | the endpoint shows the live collection, else the finished one that began last, else no history |
| `Alerts.FingerprintIsInjective` | app/services/alert_service.py:58-62 | equal fingerprints mean equal server and type, through decimal printing |
| `Alerts.FingerprintText` | app/services/alert_service.py:58-62 | a fingerprint as it is stored: id, colon, type |
| `Alerts.EvaluateNeverRepeats` | app/services/alert_service.py:26-52 | the candidates of one evaluation have distinct fingerprints |
| `Alerts.CandidatesAreExact` | app/services/alert_service.py:26-52 | a listing asks for an alert iff an enabled server has no sample, one older than allowed, or a value above its threshold; with that value, threshold and instant |
| `Alerts.CriticalIff` | app/services/alert_service.py:105-110 | critical iff processor, memory or disk at 95 or more |
| `AlertLifeCycle.UnresolvedAreTheCandidates` | app/services/alert_service.py:54-103 | after a synchronisation the unresolved alerts are exactly the candidates', one row each |
| `AlertLifeCycle.SyncedRow` | app/services/alert_service.py:54-103 | what happens to each old row, column by column: reopened, kept or made active if a candidate has its fingerprint, resolved now if none has; nothing else changes in the latter |
| `AlertLifeCycle.CandidateRow` | app/services/alert_service.py:54-95 | each candidate has a row with its contents, severity and this instant; a new one is active and first seen now |
| `AlertLifeCycle.ResyncChangesNoStatus` | app/services/alert_service.py:54-103 | synchronising the same candidates again adds no row and changes no status, acknowledgement or resolution |
| `AlertLifeCycle.RunKeepsSound` | app/services/alert_service.py:54-103 | over every sequence of listings and updates fingerprints stay unique, resolved iff `resolved_at` is set, first instants never change |
| `AlertLifeCycle.AcknowledgementSurvives` | app/services/alert_service.py:86-101 | an acknowledgement survives as long as its condition fires and the operator leaves it alone |
| `AlertLifeCycle.FiringAgainStartsAfresh` | app/services/alert_service.py:90-93 | a resolved alert that fires again is active and unacknowledged |
| `AlertLifeCycle.CommitKeepsMarkIff` | app/api/v1/alerts.py:42-46 | exactly which overlapping commits break the link between status and `resolved_at` |
| `AlertLifeCycle.OverlapBreaksMark` | app/api/v1/alerts.py:42-46 | a listing and an acknowledgement that overlap and break it |
| `AlertLifeCycle.FiringKeepsAcknowledgementIff` | app/services/alert_service.py:86-95 | a firing listing keeps an acknowledgement committed since it read the row iff it had not read the alert as resolved, and then leaves the row as it is; otherwise the instant stays behind unless it had read one |
| `AlertLifeCycle.ReopeningLosesAcknowledgement` | app/services/alert_service.py:90-93 | an overlap in which a listing reopens a resolved alert over its acknowledgement |
| `AlertService.AlertRepository.MapByFingerprints` | app/repositories/alert_repository.py:22-28 | the batch agrees with one lookup per fingerprint |
| `AlertService.AlertService.EvaluateMetric` | app/services/alert_service.py:130-181 | the candidates of one sample, in order |
| `AlertService.AlertService.CollectCandidates` | app/services/alert_service.py:26-52 | the candidates of all enabled servers, in order |
| `AlertService.AlertService.Evaluate` | app/services/alert_service.py:26-52 | the whole table after a listing, and the list it returns |
| `AlertService.AlertService.Sync` | app/services/alert_service.py:54-103 | the whole table after both loops; the returned list shows the row of each candidate as the table ends up |
| `AlertService.AlertService.UpdateAlert` | app/api/v1/alerts.py:33-47 | the operator's update, or 404 for an unknown id |
| `CursorCodec.CursorRoundTrip` | app/api/pagination.py:22-33 | decoding an encoded position gives it back |
| `CursorCodec.CursorsAreDistinct` | app/api/pagination.py:22-25 | different positions have different cursors |
| `CursorCodec.PartitionAtFirstBar` | app/api/pagination.py:31-32 | the split at the first bar undoes the join |
| `CursorCodec.TextReadsBytes` | app/api/pagination.py:31 | bytes are read as the text they print, and refused if they are not ASCII |
| `Base64Url.DecodeReadsEncode` | app/api/pagination.py:25-31 | decoding URL-safe base64 gives back the bytes, for every length |
| `Base64Url.AlphabetIsUrlSafe` | app/api/pagination.py:25-31 | the alphabet of section 5 of RFC 4648, letter by letter; the reader also takes the two letters of section 4 |
| `Base64Url.GroupsCarryTheBits` | app/api/pagination.py:25 | four letters carry the bits of three bytes; shorter last groups are padded |
| `Base64Url.TestVectors` | app/api/pagination.py:25-31 | test vectors of section 10 of RFC 4648; texts without their padding are refused |
| `Decimal.ParseIntReadsPrintInt` | app/api/pagination.py:24-32 | reading a printed integer gives it back |
| `Decimal.ParseIntReadsSigns` | app/api/pagination.py:32 | signs are read as one would expect |
| `Decimal.PrintIsDecimal` | app/api/pagination.py:24 | decimal digits, the most significant first |
| `Pagination.PageIsExact` | app/api/v1/servers.py:299-311 | a page holds rows of the owner and the range only, strictly behind the cursor and the latest first; its cursor is the key of its last row and is there iff such rows are left, all of which lie behind it |
| `Pagination.WalkIsExactlyOnce` | app/api/v1/servers.py:299-311 | while rows come and go, a walk returns strictly descending keys over all pages, only rows of the owner and the range that were there at some request, and every one that was there throughout |
| `Pagination.Walk` | app/api/v1/channels.py:132-144 | every walk ends and has at least one page |
| `Pagination.OnlyTheLastPageEnds` | app/api/v1/channels.py:132-144 | every page but the last is full, and only the last has no cursor |
| `Pagination.FirstRows` | app/repositories/server_repository.py:368-384 | ordering and limit: descending, and everything missing is older than everything returned |
| `Pagination.HeaderLeadsToTheNextPage` | app/repositories/channel_repository.py:529-547 | sending the header back asks for exactly the next page |
| `IdentityLookup.GetByIdentities` | app/repositories/channel_repository.py:232-279 | the batched lookup returns exactly what one-by-one lookups would |
| `IdentityLookup.QuerySource` | app/repositories/channel_repository.py:237-244 | one query per source adds exactly that source's rows |
| `IdentityLookup.LookupFindsChannel` | app/repositories/channel_repository.py:224-230 | the lookup by identity columns is the single lookup of channels |
| `SampleStore.PhaseAccounts` | app/collectors/collection.py:157-206 | readings = inserted + skipped + errors; samples stay unique; earlier ones untouched; rows grow by the inserted |
| `SampleStore.ReplayIsEmptyIffKept` | app/collectors/collection.py:157-276 | a replay inserts nothing iff every reading with an owner has its sample |
| `SampleStore.ReplayAfterSuccess` | app/collectors/collection.py:157-276 | after a phase without failures a replay leaves the table as it is |
| `SampleStore.HeartbeatIsLastSample` | app/collectors/collection.py:196-202 | a server's heartbeat is the instant of the last sample stored for it, and it is online unless in maintenance |
| `SampleStore.AddedSamplesAreReadings` | app/collectors/collection.py:157-276 | every added sample is that of a reading with an owner whose savepoint did not fail; errors count exactly the other readings |
| `SampleStore.ChannelItemIsExact` | app/collectors/collection.py:229-272 | owner, event, stream and server of a channel sample: those of the identities that the reading names, else the channel's own event and stream |
| `SampleStore.ServerItemIsExact` | app/collectors/collection.py:157-206 | owner, instant and values of a server sample |
| `MetricService.StoreServerMetrics` | app/collectors/collection.py:157-206 | table, counters and servers after the server phase |
| `MetricService.StoreChannelMetrics` | app/collectors/collection.py:208-276 | table and counters after the channel phase, as if each identity had been looked up on its own |
| `MetricService.BatchedItem` | app/collectors/collection.py:229-272 | the sample built from the three dictionaries is the one that single lookups give |
| `ServerRemoval.RemovalKeepsHistory` | app/api/v1/servers.py:239-276 | a request destroys no metric, alert, snapshot, assignment, sample or history row, nor a job that was not cancelled before; one that cancels a job only archives |
| `ServerRemoval.SequencesKeepHistory` | app/api/v1/servers.py:239-276 | the same over every sequence of requests and job events |
| `ServerRemoval.SequencesKeepJobs` | app/repositories/server_repository.py:270-298 | each request in such a sequence leaves every job that was not cancelled, or cancels it |
| `ServerRemoval.ProtectedServersStay` | app/repositories/server_repository.py:253-268 | only servers that nothing refers to are deleted |
| `ServerRemoval.CheckIsExact` | app/repositories/server_repository.py:190-268 | the counters allow a hard delete iff no protected row refers to the server and it has no cost; the category counter adds nothing |
| `ServerRemoval.SummaryCountsRows` | app/repositories/server_repository.py:190-251 | each counter is the number of rows of its own table that refer to the server |
| `ServerRemoval.AnswerIsExact` | app/api/v1/servers.py:212-276 | a request in full: 404 iff the server is unknown, refused iff name or host name is not repeated, deleted iff nothing refers to it, archived otherwise; what each answer leaves, table by table |
| `ServerRemoval.DeletionLosesNothingIff` | app/api/v1/servers.py:251-255 | a deletion leaves all protected tables as they are and takes no uncancelled job iff nothing refers to the server |
| `ServerRemoval.StaleCheckLosesOnlyLateRows` | app/api/v1/servers.py:239-255 | the same at any instant after an allowing check; every metric, alert, snapshot, place or reopened job it loses came after the check |
| `ServerService.DeleteServer` | app/api/v1/servers.py:212-276 | tables and answer of the endpoint in every case |
| `ServerService.ServerRepository.CancelIfActive` | app/repositories/server_repository.py:279-296 | one job is cancelled and audited iff it is active and of the server |
| `ServerService.ServerRepository.CancelActiveOnboardings` | app/repositories/server_repository.py:270-298 | exactly the active jobs of the server are cancelled, audited and counted |
| `OutputCapture.DrainStream` | app/services/ssh_service.py:451-463 | the buffer stays the first bytes of what the stream delivered, which is every ready chunk up to the first empty one |
| `OutputCapture.DrainChannel` | app/services/ssh_service.py:451-463 | the same for both streams, one after the other |
| `OutputCapture.CollectChannelResult` | app/services/ssh_service.py:434-448 | exit status returned; each buffer is exactly the first 65536 bytes delivered; a timeout iff the deadline passes before the exit status; nothing that arrived is lost unless a read comes back empty |
| `OutputCapture.FirstIsPrefix` | app/services/ssh_service.py:455-462 | what is kept is a prefix, the whole if it fits and of the allowed length otherwise |

## Left out

- Identity map: rows are values, so two references to one mapped object of a session are not distinguished. Savepoints
  restore rows by value, which is what the program sees after a rollback.
- Deleted channels: no code deletes channels, events or streams, so ids are positions without gaps.
- SSH, SFTP, HTTP, SQL text, logging, routing, settings and migrations: I/O and glue. Remote answers and the Prometheus
  probe are arbitrary inputs.
- Failing commits of the onboarding session: each commit of that protocol succeeds; those of a collection may fail.
- Onboarding: the server's own columns (`enabled`, versions, fingerprints), audit events and time stamps are not modelled,
  so nothing is claimed about them; the row is not deleted while a worker holds it.
- OnboardingRow.ServerOnboarding.RecoverStale: whether the row is overdue is a parameter, because no clock is modelled
  there, and the audit event is not modelled.
- OnboardingRow.ServerOnboarding.Complete: the server's columns, the instant of completion and the audit event are not
  modelled.
- CollectionRunner.DistributedCollectionLock.Release: does not model an unlock that fails on a live connection, nor a
  connection lost without its process; a crash is the only way to lose the advisory lock.
- CollectionExclusion: the clock is one and never goes back, and the session is bound to an engine as
  app/collectors/runner.py:83 asserts.
- CollectionRuns.CollectionRunRepository.Finish: duration, error texts and the copied counters are not part of the row.
- AlertService.AlertService.EvaluateMetric: names, messages and the rounding of percentages and minutes are not modelled;
  the network utilisation of a server is an input.
- AlertService.AlertService.CollectCandidates: the same.
- AlertLifeCycle.RunKeepsSound: each request is one transaction; overlapping ones are treated by the last four lemmas of
  that module on the three columns of the life cycle.
- ServerRemoval.SequencesKeepHistory: each request is one transaction; the race between check and deletion is stated in
  `StaleCheckLosesOnlyLateRows`.
- SampleStore: the contents of samples are opaque.
- CursorCodec.DecodeCursor: refuses cursors that hold non-ASCII text, of which the program accepts some; instants are
  printed and read by parameters that undo each other.
- Pagination: the 404 for an unknown owner and the limits on `limit` are not modelled; a page size is any positive number.
- OutputCapture.CollectChannelResult: each drain sees finitely many ready chunks, and the final truncation to 8000
  characters is left out.
- Retention: the service that deletes samples and run rows older than a cutoff is not modelled; the results on stored
  samples and on run rows speak of collections only, while `Pagination` allows any deletion.
- Mock, composite and Prometheus adapters, balance, overview and recommendations: they would add only short arithmetic or
  easy folds.
