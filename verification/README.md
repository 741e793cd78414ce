# MegaRAID dashboard: a verified model

This Dafny project models the parts of a RAID monitoring service in which correctness depends on
more than one function: data that is compacted and pruned while it is still being read, alerts that
must neither be lost nor repeated, and two maintenance tools that must be able to undo what they did
after a crash at any point. `dafny verify dfyconfig.toml` checks everything.

Times are whole seconds on a clock that does not go back. A database transaction is one atomic step,
and a crash stops a process between two of them. Everything outside the program (the provider, the
mail server, systemd, the controller, the file system) may answer or fail in any way.

## What is modelled

**Metric retention** (`Aggregates`, `Retention`, `Compaction`). Raw samples roll up into hourly rows
and hourly rows into daily ones, and the sources are pruned in the same transaction. The reference is
a log that is never pruned. Assumed: samples are not older than what was already pruned, and error
counters count from zero. The main theorem holds for all runs when raw retention is not longer than
hourly retention. The settings validator accepts longer ones; then hours are lost, and the equivalence
says that this is the only case.

**Drive history** (`DriveHistory`, `ReplacementMarkers`). The reader merges the three layers, finer
rows first, and marks drive replacements.

**Deployment** (`Deployment`). The host is the override file, the environment file, what systemd has
loaded, the running release, the receipt and the recovery record. Every step may fail before or after
taking effect, or be the last one of the process; a script of faults, which is arbitrary in every theorem,
says which. One case escapes the write-ahead flags: the write of the restart flag raises without reaching
the disk, and the undo inside the same process, which knows of the restart, stops the service and cannot
start it. A later rollback then completes, reports `not_activated`, and the service stays down. The
theorem about histories is an equivalence with this case, and scripts are shown to lead into it.

**LED setting** (`LocateActivity`). Receipts, audit rows and dispatched writes form a run whose
legality says what must have happened before each step.

**Drive temperatures** (`Hysteresis`, `TemperatureStates`). The three-level machine, and the table that
keeps its level per disk across polls, replacements, missing readings and retention. A disk that comes into
a slot starts from the normal level, except in one case: its removal and its return both fell on polls for
which no snapshot was left, and no poll in between noticed anything in the slot. Then it goes on from the
level it left with.

**Incidents and relevance** (`States`, `Incidents`, `Relevance`, `TemperatureRelevance`, `RocRecovery`,
`RocRelevance`). Which incident an event belongs to, when it is over, and whether saved data still supports
a queued alert. The controller temperature is answered from two stored times and pruned readings, a drive
temperature from the level that the disk's own readings led to.

**Array events** (`VirtualDrives`, `ArrayAlerts`, `ArrayRuns`). The event log replays to the snapshot.
A poll for which retention has left no snapshot takes what it sees for a first inventory; log and
snapshots go on agreeing about an array if and only if such polls were harmless for it, which depends on
what was recorded, what the array was and what it is. In a run where they were not, a recovery is lost.

**Telegram outbox** (`Outbox`, `OutboxQueue`, `OutboxRuns`, `OutboxTheorems`, `OutboxDelivery`,
`OutboxFairness`, `TelegramRules`, `TelegramNotifier`). A run is the list of its commits, each with the
condition under which it may happen. The theorems are about all such runs, for any answers to the
relevance and repetition questions; `TelegramRules` puts in the service's own answers.
`TelegramNotifier` is the cycle itself, with its loop, its counters, a possible stop after every commit
and the collector's commits whenever the lock is free; its commits are shown to be such a run. An event is
accepted twice only if one of its own acceptances was lost before it was stored; no other crash matters.

**Outage alert** (`MonitoringOutage`). One alert per outage. The description "failed polls since the
last success" is true while the snapshot of that success is stored, or if there never was one; when
retention has pruned it, older failures count too.

**Rate limiter** (`RateLimiter`), **e-mail spacing** (`SmtpNotifier`), **event pages** (`EventPaging`).
Three refinements of a simple reference: a log that never forgets, a run of marks, a sorted listing.

**Both channels together** (`DeliveryChannels`). One database with the shared event log, the e-mail markers
and the Telegram rows. Every interleaving of the two channels is, for each of them, a run of its own.

`Prelude`, `Sequences` and `Sorting` hold the shared vocabulary.

## Model

| member | source | states |
|---|---|---|
| `Retention.RawMetricsAccumulator.Add` | src/megaraid_dashboard/db/retention.py:18-43 | adding a sample merges it into the bucket's aggregate: counters by maximum, readings by list, the newest serial |
| `Retention.RawMetricsAccumulator.Summary` | src/megaraid_dashboard/db/retention.py:195-233 | the hourly row holds exactly the aggregate of the samples that were added |
| `Retention.HourlyMetricsAccumulator.Add` | src/megaraid_dashboard/db/retention.py:46-80 | adding an hourly row merges what the row stands for; a mean weighs as many readings as it was taken over |
| `Retention.RowKeepsAggregate` | src/megaraid_dashboard/db/retention.py:61-80 | a stored row gives back the aggregate it was made from: mean and count determine the sum |
| `Retention.MetricsStore.DownsampleToHourly` | src/megaraid_dashboard/db/retention.py:83-116 | after the loop, the hourly table is the old one overwritten by one row per hour and disk of all raw samples before the cutoff |
| `Retention.MetricsStore.DownsampleToDaily` | src/megaraid_dashboard/db/retention.py:119-152 | the daily table is the old one overwritten by the merge of the stored hours of each due day |
| `Retention.HoursMergedInsert` | src/megaraid_dashboard/db/retention.py:126-152 | the order in which hourly rows are read does not matter to any day's merge |
| `Retention.MetricsStore.UpsertHourly` | src/megaraid_dashboard/db/retention.py:195-233 | an upsert replaces the row of exactly its own key |
| `Retention.MetricsStore.UpsertDaily` | src/megaraid_dashboard/db/retention.py:236-278 | an upsert replaces the row of exactly its own key |
| `Retention.MetricsStore.PruneRaw` | src/megaraid_dashboard/db/retention.py:155-170 | exactly the samples before the hour-aligned cutoff go |
| `Retention.MetricsStore.PruneHourly` | src/megaraid_dashboard/db/retention.py:173-192 | exactly the hourly rows before the day-aligned cutoff go |
| `Retention.MetricsStore.RunRetention` | src/megaraid_dashboard/services/scheduler.py:191-215 | the four steps of the nightly transaction add up to one transition of the three layers |
| `Compaction.Drive` | src/megaraid_dashboard/services/scheduler.py:191-215 | the store, driven by any allowed sequence of inserts and nightly runs, is in the state of that run |
| `Compaction.EveryRunIsTiered` | src/megaraid_dashboard/db/retention.py:83-192 | in every reachable state each layer is the full history of its own range of time, cut at two aligned boundaries |
| `Compaction.CompactionRefinesTheLog` | src/megaraid_dashboard/db/retention.py:83-278 | for every run with raw retention not longer than hourly, every day and disk: count, error maxima, temperature minimum, maximum, count and sum of all surviving rows equal those of the never-pruned history |
| `Compaction.RetentionIsIdempotent` | src/megaraid_dashboard/db/retention.py:83-192 | running the job again at the same instant changes nothing |
| `Compaction.SchedulesAgree` | src/megaraid_dashboard/db/retention.py:83-192 | two runs with the same samples and cutoffs hold the same layers, however often the job ran in between |
| `Compaction.LongerRawRetentionLosesHours` | src/megaraid_dashboard/db/retention.py:236-278 | with raw retention longer than hourly, for every such setting, the overwriting daily upsert loses the earlier hours of a day |
| `Compaction.LosslessIffRawRetentionIsNotLonger` | src/megaraid_dashboard/config.py:105-110 | no run ever loses anything if and only if the raw retention is not longer; the validator does not enforce it |
| `DriveHistory.ErrorMerge` | src/megaraid_dashboard/services/drive_history.py:320-339 | no hour or day of a disk is reported by two layers, every hourly row that is dropped is covered by a raw row of that hour and disk, and every daily row by a kept finer row of that day and disk |
| `DriveHistory.TemperatureMerge` | src/megaraid_dashboard/services/drive_history.py:295-317 | the same for rows with a reading; no raw reading is dropped |
| `DriveHistory.ReachableStatesDropNothing` | src/megaraid_dashboard/services/drive_history.py:320-339 | on every state the retention job can reach, the merge of the error series drops no row |
| `DriveHistory.ReachableStatesDropNoReading` | src/megaraid_dashboard/services/drive_history.py:295-317 | on those states it drops no aggregate row that has a reading |
| `DriveHistory.ShownMaximaEqualTheHistory` | src/megaraid_dashboard/services/drive_history.py:164-223 | for every run, day and counter, after the serial filter and the merge: nothing shown exceeds the maximum of the never-pruned history, and that maximum is shown exactly when the filter keeps the window |
| `DriveHistory.ShownTemperaturesEqualTheHistory` | src/megaraid_dashboard/services/drive_history.py:97-161 | the same for the lowest minimum and the highest maximum of the temperature series: they are those of every reading ever taken on that day |
| `DriveHistory.SerialWindowIsAllOrNothing` | src/megaraid_dashboard/services/drive_history.py:437-456 | the serial filter keeps everything or nothing, and exactly when |
| `ReplacementMarkers.FindMarkers` | src/megaraid_dashboard/services/drive_history.py:459-481 | the loop that keeps only the last serial produces the change list of the sorted series |
| `ReplacementMarkers.MarkersAreTheChanges` | src/megaraid_dashboard/services/drive_history.py:459-481 | a marker exists for exactly the adjacent serial changes |
| `ReplacementMarkers.MarkersChain` | src/megaraid_dashboard/services/drive_history.py:471-480 | each marker starts from the disk the previous marker ended with, and names two different disks |
| `ReplacementMarkers.MarkersReplayTheSeries` | src/megaraid_dashboard/services/drive_history.py:463-480 | following the markers from the first serial arrives at the last |
| `ReplacementMarkers.MarkersIgnoreTheInputOrder` | src/megaraid_dashboard/services/drive_history.py:484-499 | the markers depend on the points, not on the order in which the layers deliver them |
| `Deployment.Deployment.Commit` | scripts/deploy_release.py:83-102 | a durable change is atomic: it took effect entirely, or the step failed and nothing changed |
| `Deployment.Deployment.UndoFiles` | scripts/deploy_release.py:1023-1046 | a completed undo of the files leaves the saved override, no environment file and the reloaded configuration; a partial one stays covered |
| `Deployment.Deployment.UndoFrom` | scripts/deploy_release.py:1015-1062 | wherever an undo stops, undoing again from the same flags leads to the same host |
| `Deployment.Deployment.Activate` | scripts/deploy_release.py:930-998 | at every point of the activation the persisted flags cover what changed, an exception finds a record to undo from, and success means the new release runs its own configuration |
| `Deployment.Deployment.ApplyLocked` | scripts/deploy_release.py:869-1013 | the in-process undo works from flags that cover the host, whatever step failed |
| `Deployment.Deployment.Apply` | scripts/deploy_release.py:850-867 | the deployment command keeps the coverage invariant through every failure and crash |
| `Deployment.Deployment.WaitHealth` | scripts/deploy_release.py:660-665 | the waiting loop ends, and success means that the service answered |
| `Deployment.Deployment.Rollback` | scripts/deploy_release.py:1064-1079 | a completed rollback restores the files always, and the old release exactly when it still ran or the restart was recorded |
| `Deployment.Deployment.AnyHistory` | scripts/deploy_release.py:850-1079 | after any number of deployments and rollbacks, each failing or killed anywhere, a rollback that completes restores the files, and the whole host if and only if no restart flag was lost with the service left stopped |
| `Deployment.RollbackRestoresFiles` | scripts/deploy_release.py:1023-1046 | from every covered host the original override comes back, the environment file goes, the old configuration is loaded |
| `Deployment.RollbackRestoresServiceIff` | scripts/deploy_release.py:1047-1062 | the host is completely restored if and only if the old release still ran or the restart is on record |
| `Deployment.RollbackIsIdempotent` | scripts/deploy_release.py:1015-1062 | a second rollback from the same record changes nothing |
| `Deployment.LostFlagLeavesServiceStopped` | scripts/deploy_release.py:930-1013 | that exception is reached: a deployment whose flag write fails and whose undo stops at its restart, then a rollback that completes, reports that nothing was activated, and leaves the service stopped |
| `LocateActivity.Operator.Phase` | scripts/locate_activity.py:279-299 | a receipt becomes durable, or the step failed and the old one still stands |
| `LocateActivity.Operator.AuditPrepare` | scripts/locate_activity.py:242-276 | a successful audit leaves a committed row under a new id |
| `LocateActivity.Operator.Operate` | scripts/locate_activity.py:302-422 | every call keeps the run legal, and leaves an unresolved receipt exactly as it is |
| `LocateActivity.Operator.AnyHistory` | scripts/locate_activity.py:302-422 | any number of calls, failing or killed anywhere, with the setting changed by others in between, form a legal run |
| `LocateActivity.DispatchIsAnnounced` | scripts/locate_activity.py:370-393 | a write is dispatched only after its audit row and directly after a durable receipt that says so |
| `LocateActivity.DispatchesAreSeparated` | scripts/locate_activity.py:343-352 | between two dispatches there is a verified or restored receipt |
| `LocateActivity.RestoreFollowsAVerifiedChange` | scripts/locate_activity.py:353-367 | a restore belongs to a durably verified change from off to on, also through unsent restores |
| `LocateActivity.VerifiedMeansConfirmed` | scripts/locate_activity.py:395-422 | verified or restored means: dispatched, then read back as intended, then audited as a success, in that order |
| `Hysteresis.Transitions` | src/megaraid_dashboard/services/event_detector.py:527-595 | the unbounded loop ends after at most two events, in the level whose band holds the reading |
| `Hysteresis.PathIsAChain` | src/megaraid_dashboard/services/event_detector.py:538-595 | the events of a poll chain from the old level to the new one by single levels |
| `Hysteresis.WarningsAreSeparated` | src/megaraid_dashboard/services/event_detector.py:538-595 | between two warnings over the same readings lies a reading below the clear boundary |
| `Hysteresis.RelevanceIsTheBand` | src/megaraid_dashboard/services/telegram_relevance.py:309-325 | a queued drive alert is active exactly when its level may persist at the reading |
| `TemperatureStates.Tracker.DetectReplacements` | src/megaraid_dashboard/services/event_detector.py:389-447 | the slots to clear are those emptied, newly filled or refilled; replaced are those with another disk |
| `TemperatureStates.Tracker.DetectTemperatures` | src/megaraid_dashboard/services/event_detector.py:481-502 | each disk with a reading gets one settled level and its own chain of events; the others get nothing |
| `TemperatureStates.Tracker.RunOnce` | src/megaraid_dashboard/services/scheduler.py:145-158 | a poll clears the cleared slots first and then stores the new levels |
| `TemperatureStates.StoredLevelFits` | src/megaraid_dashboard/services/event_detector.py:481-502 | after every poll, from any earlier table, the stored level of a disk fits its reading |
| `TemperatureStates.TableTracksTheDisk` | src/megaraid_dashboard/services/scheduler.py:145-158 | in every run, with or without pruning, the stored level of a disk that stays in its slot is the machine run over its own readings from the level it was inserted with |
| `TemperatureStates.InsertedDisksStartNormalUnless` | src/megaraid_dashboard/services/event_detector.py:389-447 | the exact condition, for every run: a disk that comes into a slot starts from another level than the normal one if and only if its return and an earlier removal were both missed, nothing in its slot was noticed in between, and it had left with another level |
| `TemperatureStates.LeftWithItsLevel` | src/megaraid_dashboard/services/event_detector.py:481-502 | such a disk goes on from exactly the level it left with; a poll that noticed anything in the slot resets it |
| `TemperatureStates.UnnoticedReturnKeepsTheLevel` | src/megaraid_dashboard/services/event_detector.py:117-128 | which does happen: a critical disk that is pulled and put back while retention empties the snapshots starts critical again |
| `TemperatureStates.Track` | src/megaraid_dashboard/services/scheduler.py:104-159 | the tracker, driven by polls and pruning, holds the table of that run |
| `TemperatureStates.AnnouncedIsTheMachine` | src/megaraid_dashboard/services/event_detector.py:481-502 | what a poll announces about a disk is what that machine emits |
| `TemperatureStates.WarningsOfADiskAreSeparated` | src/megaraid_dashboard/services/event_detector.py:481-595 | over whole runs with pruning, two warnings of one disk in a continuously occupied slot are separated by a reading below the clear boundary |
| `TemperatureStates.StoredSeverityIsActive` | src/megaraid_dashboard/services/telegram_relevance.py:277-294 | an alert whose severity is the stored level is active at the reading that set the level |
| `Relevance.TemperatureAlertStandsAtItsLevel` | src/megaraid_dashboard/services/telegram_relevance.py:277-294 | while the stored level of a disk fits its reading, an alert of the disk stands exactly when its severity is that level |
| `TemperatureRelevance.AlertStandsAtTheMachineLevel` | src/megaraid_dashboard/services/telegram_relevance.py:277-294 | over every run of polls with any pruning: an alert stands exactly when its severity is the level of the machine run over the disk's own readings |
| `TemperatureRelevance.TemperatureAlertIsDeliveredIff` | src/megaraid_dashboard/services/telegram_relevance.py:193-294 | and it is delivered, whenever data is fresh and has a reading, if and only if nothing superseded it and its severity is that level |
| `States.NormalizedOnce` | src/megaraid_dashboard/storcli/states.py:16-18 | the normal form of a state is its own normal form |
| `Incidents.KeyIgnoresCountersAndSpelling` | src/megaraid_dashboard/services/telegram_messages.py:41-68 | growing counters and other spellings of a state do not start a new incident |
| `Incidents.SelectionIsThePolicy` | src/megaraid_dashboard/services/telegram_notifier.py:290-349 | the filter of the query selects exactly the alerts of the written policy |
| `Incidents.SupersededMeansOlder` | src/megaraid_dashboard/services/telegram_relevance.py:155-190 | an incident that was over when an event occurred began before that event |
| `RocRecovery.RecoveryLog.RecordClears` | src/megaraid_dashboard/services/telegram_relevance.py:55-81 | the loop over both gauges stores only later times and bootstraps a missing one from what is kept |
| `RocRecovery.Drive` | src/megaraid_dashboard/services/scheduler.py:104-131 | the bookkeeping, driven by any polls and pruning, holds the evidence of that run |
| `RocRecovery.LatestClearIsTheMaximum` | src/megaraid_dashboard/services/telegram_relevance.py:73-79 | the bootstrap query finds the latest clear up to the poll |
| `RocRecovery.EveryRunRemembers` | src/megaraid_dashboard/services/telegram_relevance.py:55-81 | in every run with polls and pruning the stored time is the latest clear of the whole history |
| `RocRecovery.RecoveredExactlyWhen` | src/megaraid_dashboard/services/telegram_relevance.py:84-110 | for every run, incident and deadline: the bounded evidence and the full history give the same answer unless a later clear replaced the time and the readings in between are pruned |
| `RocRecovery.RecoveredAsOfNow` | src/megaraid_dashboard/services/telegram_relevance.py:84-110 | asked as of now, it answers like the full history |
| `RocRecovery.RecoveredAsOfALiveEvent` | src/megaraid_dashboard/services/telegram_notifier.py:202-216 | asked as of an event that is not recovered by now, as the duplicate check does, it answers like the full history |
| `RocRecovery.LaterClearsHideEarlierOnes` | src/megaraid_dashboard/services/telegram_relevance.py:84-110 | without that check the answer can be lost |
| `RocRelevance.RelevanceSeesEveryClear` | src/megaraid_dashboard/services/telegram_relevance.py:84-110 | the relevance check finds a controller temperature alert recovered exactly when some reading ever taken up to now cleared it |
| `RocRelevance.DuplicateCheckSeesEveryClear` | src/megaraid_dashboard/services/telegram_notifier.py:202-216 | for an alert that passed that check, an older message still speaks for it exactly when neither the log nor any reading ever taken ended its incident |
| `VirtualDrives.DetectBaseline` | src/megaraid_dashboard/services/event_detector.py:197-202 | the first snapshot reports unhealthy arrays |
| `VirtualDrives.DetectVirtualDrives` | src/megaraid_dashboard/services/event_detector.py:335-387 | the loops produce the listed change and discovery events |
| `VirtualDrives.DetectedAbout` | src/megaraid_dashboard/services/event_detector.py:335-387 | seen from one array, a poll records its own transition, whatever happens to the others |
| `ArrayAlerts.PollAgrees` | src/megaraid_dashboard/services/event_detector.py:335-387 | a poll that knows its predecessor keeps the replayed events and the array in agreement |
| `ArrayAlerts.StandsExactlyUntilSuperseded` | src/megaraid_dashboard/services/telegram_relevance.py:193-243 | in a state in agreement, with fresh data, an array alert is active if and only if nothing superseded it |
| `ArrayAlerts.BlindPollAgreesIff` | src/megaraid_dashboard/services/event_detector.py:117-128 | a poll without a predecessor keeps the agreement about an array if and only if nothing was recorded about it before, or it was and is absent, or it was present and is unhealthy or in its old state |
| `ArrayRuns.ArrayCollector.RunOnce` | src/megaraid_dashboard/services/scheduler.py:104-159 | one poll appends its snapshot and the array events against the snapshot before it |
| `ArrayRuns.Drive` | src/megaraid_dashboard/services/scheduler.py:104-159 | the collector, driven by any polls, events and pruning, holds the log and snapshots of that run |
| `ArrayRuns.LogAndSnapshotAgree` | src/megaraid_dashboard/services/event_detector.py:335-387 | in every run that never prunes the latest snapshot, replaying the events gives each array's current state or absence, and an array without events is healthy or absent |
| `ArrayRuns.LogAndSnapshotAgreeIff` | src/megaraid_dashboard/services/event_detector.py:107-128 | over all runs with any pruning: events and latest poll agree about an array after every step if and only if every poll without a predecessor was harmless for it |
| `ArrayRuns.ArrayAlertStandsUntilSuperseded` | src/megaraid_dashboard/services/telegram_relevance.py:193-243 | over all runs without a harmful poll, whenever data is fresh: active if and only if not superseded |
| `ArrayRuns.BrokenChainHidesRecovery` | src/megaraid_dashboard/services/event_detector.py:127-128 | a run with a harmful poll in which this fails: degraded, all snapshots pruned, optimal; the recovery is never recorded, and the alert is over though nothing superseded it |
| `OutboxRuns.BackoffIsBoundedAndMonotone` | src/megaraid_dashboard/services/telegram_notifier.py:428-432 | the delay does not shrink with the attempts and stays between a minute and an hour |
| `OutboxRuns.DelayIsBounded` | src/megaraid_dashboard/alerts/telegram.py:41-57 | provider hints are bounded before they are used |
| `OutboxRuns.RunsAreSane` | src/megaraid_dashboard/services/telegram_notifier.py:122-287 | the invariants of every reachable state of the outbox |
| `OutboxQueue.CandidatesAreListed` | src/megaraid_dashboard/services/telegram_notifier.py:300-350 | the query lists exactly the due alerts, in its order |
| `OutboxQueue.BatchIsTheFrontOfTheQueue` | src/megaraid_dashboard/services/telegram_notifier.py:300-350 | a candidate that is left out has a full batch ahead of it |
| `OutboxTheorems.ClampsAreNoOps` | src/megaraid_dashboard/services/telegram_notifier.py:149-168 | the repairs at the start of a cycle change nothing that this code wrote |
| `OutboxTheorems.NoSendDuringAnEmbargo` | src/megaraid_dashboard/services/telegram_notifier.py:169-260 | over all runs, no send starts before the end of any waiting time the provider ever asked for |
| `OutboxTheorems.EmbargoesAdvance` | src/megaraid_dashboard/services/telegram_notifier.py:246-249 | every embargo ends later than the one it replaces |
| `OutboxTheorems.NoSendBeforeTheRetryTime` | src/megaraid_dashboard/services/telegram_notifier.py:421-432 | over all runs, no event is sent again before the retry time its last failure recorded |
| `OutboxTheorems.CycleBudget` | src/megaraid_dashboard/services/telegram_notifier.py:221-239 | a cycle makes at most five sends and none after its first failure |
| `OutboxTheorems.AttemptsAreClaims` | src/megaraid_dashboard/services/telegram_notifier.py:405-418 | the stored counter is the number of claims, whatever crashed |
| `OutboxDelivery.NothingIsLost` | src/megaraid_dashboard/services/telegram_notifier.py:173-273 | in every reachable state an alert was accepted by the provider, was dropped for a reason, or becomes a candidate again within the longest wait after its last commit |
| `OutboxDelivery.DroppedForAReason` | src/megaraid_dashboard/services/telegram_notifier.py:186-220 | whatever is dropped had a reason that held at that commit |
| `OutboxDelivery.NoEventIsAcceptedTwice` | src/megaraid_dashboard/services/telegram_notifier.py:177-185 | a run that loses no acceptance of an event has it accepted at most once, and once exactly when its row is sent or its accepted send is open |
| `OutboxDelivery.AcceptancesBalance` | src/megaraid_dashboard/services/telegram_notifier.py:173-273 | in every run, with any crashes and refusals, every acceptance of an event is in its sent row, in its open send, or was lost before it was stored |
| `OutboxDelivery.AcceptedTwiceOnlyAfterALoss` | src/megaraid_dashboard/services/telegram_notifier.py:177-185 | an event is accepted more than once if and only if it is accepted again after one of its own acceptances was lost |
| `OutboxDelivery.CrashMayDuplicate` | src/megaraid_dashboard/services/telegram_notifier.py:177-185 | with a crash between acceptance and commit it may |
| `OutboxDelivery.NoRepeatWithinADay` | src/megaraid_dashboard/services/telegram_notifier.py:211-220 | within a day of a delivery no claim is a repeat of it |
| `OutboxFairness.BatchesAreFair` | src/megaraid_dashboard/services/telegram_notifier.py:300-350 | with k unfinished alerts ahead and no arrivals, a due alert is passed over by at most k / 100 crash-free cycles |
| `TelegramRules.EveryMessageIsCurrent` | src/megaraid_dashboard/services/telegram_relevance.py:193-222 | every message of every run is about a confirmed alert that fresh data still shows |
| `TelegramRules.OneMessagePerIncident` | src/megaraid_dashboard/services/telegram_notifier.py:368-402 | two messages of the same incident within a day: the later one is the later event, and the earlier incident was over when it occurred |
| `TelegramRules.ServiceMayDuplicate` | src/megaraid_dashboard/services/telegram_notifier.py:177-185 | under the service's own rules a crash after the acceptance makes the provider accept an alert twice |
| `TelegramNotifier.Notifier.Start` | src/megaraid_dashboard/services/telegram_notifier.py:149-171 | repairs, embargo check and batch in one commit |
| `TelegramNotifier.Notifier.Defer` | src/megaraid_dashboard/services/telegram_notifier.py:435-449 | one commit of the row; the confirmation deadline or a minute |
| `TelegramNotifier.Notifier.Skip` | src/megaraid_dashboard/services/telegram_notifier.py:452-457 | one commit of the row and its reason |
| `TelegramNotifier.Notifier.Claim` | src/megaraid_dashboard/services/telegram_notifier.py:405-418 | one commit that counts the attempt before the send |
| `TelegramNotifier.Notifier.RecordSendFailure` | src/megaraid_dashboard/services/telegram_notifier.py:236-250 | the retry time of the row and the embargo of the channel in one commit |
| `TelegramNotifier.Notifier.MarkSent` | src/megaraid_dashboard/services/telegram_notifier.py:261-264 | one commit of the delivery, at the time of its claim |
| `TelegramNotifier.Notifier.RunCycle` | src/megaraid_dashboard/services/telegram_notifier.py:122-287 | the cycle's commits, with the collector's between them whenever the lock is free, are a legal run, also when the process stops between any two of them; a finished cycle dealt with its whole batch and counted every candidate once under what was committed for it |
| `TelegramNotifier.Notifier.AnyHistory` | src/megaraid_dashboard/services/telegram_notifier.py:122-287 | cycles and collector steps in any order form a legal run |
| `MonitoringOutage.Collector.RecordFailure` | src/megaraid_dashboard/services/scheduler.py:382-405 | the failure is recorded first and counts itself; at most one alert follows it |
| `MonitoringOutage.Drive` | src/megaraid_dashboard/services/scheduler.py:382-405 | the collector, driven by any successes, failures and pruning, holds the state of that run |
| `MonitoringOutage.OneAlertPerOutage` | src/megaraid_dashboard/services/scheduler.py:444-475 | between two successes at most one alert is raised, even when every snapshot is pruned meanwhile |
| `MonitoringOutage.AlertsAreEarned` | src/megaraid_dashboard/services/scheduler.py:444-475 | while the last success is stored, or if there never was one, an alert means three failed polls and the configured time since that success, or since the first failure |
| `MonitoringOutage.EarnedAlertsAreRaised` | src/megaraid_dashboard/services/scheduler.py:444-475 | and an earned alert is raised exactly when none was since the outage began |
| `MonitoringOutage.AlertsAfterPruning` | src/megaraid_dashboard/services/scheduler.py:446-470 | while no snapshot is stored, failures before a pruned success count: the exact condition of an alert then |
| `MonitoringOutage.PrunedSuccessLetsOneFailureAlert` | src/megaraid_dashboard/services/scheduler.py:446-470 | so that a single failed poll can raise it |
| `RateLimiter.Limiter.Evict` | src/megaraid_dashboard/web/rate_limit.py:150-153 | eviction from the front leaves exactly the fresh slots |
| `RateLimiter.Limiter.PruneExpired` | src/megaraid_dashboard/web/rate_limit.py:139-147 | the periodic prune loses no fresh slot of any client |
| `RateLimiter.Limiter.Reserve` | src/megaraid_dashboard/web/rate_limit.py:114-125 | a reservation is refused exactly when the full log holds `limit` unreleased attempts of the client within the last minute |
| `RateLimiter.Limiter.Release` | src/megaraid_dashboard/web/rate_limit.py:127-137 | a release removes the slot from the log whether or not it was evicted before |
| `RateLimiter.AgreesEvicted` | src/megaraid_dashboard/web/rate_limit.py:150-153 | what is evicted is fresh at no later time |
| `RateLimiter.AgreesReleased` | src/megaraid_dashboard/web/rate_limit.py:127-137 | release by identity and eviction by age commute |
| `RateLimiter.AtMostTheLimit` | src/megaraid_dashboard/web/rate_limit.py:114-125 | no client ever holds more than the limit within a minute |
| `SmtpNotifier.EmailsOfAKindAreSpaced` | src/megaraid_dashboard/services/notifier.py:105-133 | after an event was e-mailed or merged, the next e-mail of its severity, category and subject is more than its window away |
| `SmtpNotifier.SettledOnce` | src/megaraid_dashboard/services/notifier.py:185-203 | no event is e-mailed twice or after it was merged |
| `SmtpNotifier.Notifier.RunCycle` | src/megaraid_dashboard/services/notifier.py:50-153 | whatever fails, every considered event is counted once: the attempts are all of them, the failures are exactly those that are still pending afterwards, and the others are marked as sent or merged |
| `SmtpNotifier.Notifier.AnyHistory` | src/megaraid_dashboard/services/notifier.py:50-153 | cycles as time goes on and new events in any order form a legal run |
| `SmtpNotifier.Notifier.LoadPending` | src/megaraid_dashboard/db/dao.py:161-180 | the pending events, each once, oldest first |
| `DeliveryChannels.ChannelsDoNotInterfere` | src/megaraid_dashboard/services/notifier.py:97-153 | no commit of one channel writes the delivery state of the other, and none rewrites a recorded event |
| `DeliveryChannels.EachChannelRunsAlone` | src/megaraid_dashboard/services/telegram_notifier.py:122-287 | every interleaving of both channels on one database is a legal run of each channel alone and ends in its state |
| `EventPaging.EventStore.LoadFragment` | src/megaraid_dashboard/services/events.py:118-177 | both errors, and otherwise the front of the selection with the cursor of its last row, and whether it is the first page |
| `EventPaging.NextPageContinues` | src/megaraid_dashboard/services/events.py:153-159 | the selection of a row's cursor starts right behind that row |
| `EventPaging.PageSplitsTheRest` | src/megaraid_dashboard/services/events.py:144-169 | a page and the selection of its cursor are the selection it was taken from |
| `EventPaging.ArrivalsStayAbove` | src/megaraid_dashboard/services/events.py:153-159 | rows that arrive above a cursor do not change what is below it |
| `EventPaging.EventStore.ReadAll` | src/megaraid_dashboard/services/events.py:138-169 | following the cursor ends and reads the listing as it was at the start, each event once, while others arrive |

## Left out

- Rounding: stored means are real numbers; the source rounds them to floating point.
- Time below a second, time zones and naive datetimes; the validation of their presence.
- Compaction.CompactionRefinesTheLog: assumes that a sample is not older than the last raw cutoff, because the source takes the capture time from its own clock.
- Retention.MetricsStore.RunRetention: requires the clock to lie at least the retention periods after the origin of time, because bucket arithmetic is modelled on natural numbers.
- DriveHistory.ShownMaximaEqualTheHistory: speaks of days that lie wholly inside the requested range.
- DriveHistory.ShownTemperaturesEqualTheHistory: speaks of the same days, and of the extremes; the means are shown without the counts they were taken over, so that the mean of a day cannot be read off the series.
- Deployment.Deployment.AnyHistory: complete restoration is false after a lost restart flag; the equivalence says exactly when, and a script of faults leads there.
- Deployment: the `adopt` command and externally verified receipts, package installation, hashes, permissions, the comparison of protected files and settings (a check that may fail), and a service that restarts by itself.
- LocateActivity: the policy file, the topology comparison and the JSON of the controller (checks that may fail), and file permissions.
- Incidents: case folding and blanks beyond ASCII, and slot numbers written with leading zeros; drive subjects are compared as text.
- RocRecovery: stored times that do not parse, which the source ignores.
- Relevance: counters of categories that are never sent.
- TemperatureStates: the `sorted` order in which updates are written; it does not change the table.
- VirtualDrives.DetectVirtualDrives: the summaries are abbreviated, because no decision reads them.
- Outbox: message texts, the health flag, metrics, and a cycle that does not start because of its configuration.
- Outbox: rows that an older release may have left (`failed`, oversized waiting times) are handled by the operations but cannot be reached from an empty outbox.
- OutboxFairness.BatchesAreFair: excludes arrivals and crashes during the cycles it counts, because either can refill the front of the queue.
- SmtpNotifier.EmailsOfAKindAreSpaced: crash-free cycles, because the source commits its marks only at the end of a cycle.
- SmtpNotifier: the throttle warning, which changes nothing, and events that age out of their window unsent.
- RateLimiter: which client an address belongs to, and attempts that are released by the response handler; it is the caller of these operations.
- EventPaging: filter normalization and row formatting.
- Physical drive state, SMART, counter and CacheVault detection: the same shape as the array events with more fields; their relevance rules are modelled.
- Controller temperature events themselves, which compare two neighbouring samples; the recovery evidence next to them is modelled.
- Foreign configuration, whose last state is kept in memory only.
- Web routes, templates, authentication, controller output parsing, migrations and the scheduler's job handling.
