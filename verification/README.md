# EaseProbe: alerting pipeline, goroutine protocol and side cores

EaseProbe runs probers. Each round of a prober produces a raw outcome, which is counted in a bounded history, turned
into a status by two thresholds, fed to an alert back-off machine and to the SLA statistics, and sent as a snapshot to
a saver and to the notification channels. A watcher of each channel decides for every snapshot whether to notify. An
exit sequence stops probers, watchers and the saver with done signals. This project models that pipeline and that
protocol, and two smaller cores: the paginated filter of the live report, and two string transformers.

`dafny verify dfyconfig.toml` checks everything.

## How the model is laid out

The Go objects that update themselves in place are Dafny classes (`StatusCounter` over a slice of a backing array,
`NotificationStrategyData`, `ProbeResult`, `DefaultProbe`, `Channel`, `ResultData`, `SLAFilter`). Every method is tied
to a function on values, and the theorems are about those functions over all outcome streams:

- `Runs`, `CounterSpec`, `StatusCounters`: trailing runs, the status counter, and the counter as a Go slice.
- `AlertSchedule`, `NotificationStrategy`: the back-off machine and its closed form.
- `Pipeline`: one round (`Step`), a run of rounds (`Run`), and the plain status `StatusAfter` on the outcome stream.
- `Alerting`, `Statistics`: which rounds notify, and what the statistics mean.
- `ProbeSettings`, `Probers`: normalisation of the settings, and the prober with the snapshots it hands out.
- `Restart`: runs that start from a stored result with new settings.
- `Channel`, `WatcherGuard`: the watcher loop, and its guard under concurrent calls.
- `Protocol`, `Delivery`, `Notifications`, `Serving`, `Shutdown`, `Capacities`: the goroutines as a transition system
  with arbitrary interleaving, what it delivers, what its watchers issue, that it goes on, how it ends, and what its
  buffers hold.
- `ResultStore`, `Filter`, `MetricName`, `EscapeQuote`: the saver's store and the side cores.

A run starts from a result freshly configured, with strategy, factor, budget and thresholds fixed. Strategy, factor and
budget may be any integers, also those that normalisation excludes; the thresholds are at least one, which
normalisation guarantees. Outcomes, messages and clock readings are arbitrary.

## Where the code and its documentation differ

Each of these is a theorem with its exact condition.

- `README.md:82` and `docs/Manual.md:159,886` promise edge-triggered notification by default. On all streams this
  holds if and only if both thresholds and the budget are one (`Alerting.EdgeTriggeredIffUnitSettings`). With a budget
  of one and other thresholds, a Down reached from Init after the first round goes unreported
  (`Alerting.EdgeTriggeredExactly`), because not-Up rounds spent in Init use up the budget. A probe that fails from the
  start is ever reported if and only if its last alert round is not below the failure threshold
  (`Alerting.ColdStartIsReportedIff`); in the middle of any run, failures that have reached the threshold are ever
  reported from a round on if and only if the not-Up stretch has not gone past the last alert round by then
  (`Alerting.DownIsReportedIff`).
- The log text of `probe/base/base.go:135-140` says "status unchanged" below the thresholds. The code falls back to
  `PreStatus`, which at that point is the status of two rounds earlier. The status therefore alternates between the
  last two statuses (`Pipeline.FallbackAlternates`), and holds if and only if these agree
  (`Pipeline.HysteresisIffSettled`). With both thresholds two, two successes and a failure end in Init, and that is
  notified (`Alerting.UnsettledUpFallsBack`).
- Successes below the success threshold do not silence the back-off of a Down probe
  (`Alerting.SlowRecoveryStillAlerts`).
- The page count `cnt/PageSize+1` of `report/filter.go:115` is one too large if and only if the page size divides the
  number of matches (`Filter.LastPageIsEmptyIff`).

## Changed settings

`Config` installs its settings also in a result loaded from the data file.

- A restart with unchanged settings goes unnoticed, also in the middle of a failing stretch
  (`Restart.RestartIsUnnoticed`).
- For any stored result and any new settings, the status is given by a plain definition on the later outcomes
  (`Restart.StatusOfRestart`): the new thresholds are in force at once (`Restart.NewThresholdsDecide`), and a run of
  outcomes goes on from the stored count. The alerts follow the new settings from the first Up round on
  (`Restart.NewScheduleHolds`); until then the alert planned before the restart stands (`Restart.PlannedAlertStands`).
- Larger thresholds raise the bound of the status counter, whose count was capped by the old bound. After any
  operations the thresholds decide like the true run length of all outcomes if and only if the count is that run length
  or has reached the new bound (`CounterSpec.ResizeDecidesIff`). Where the bound has not grown before, raising it can
  be told safe from the counter alone if and only if the count is below the old bound or not below the new one
  (`CounterSpec.SafeToGrowIff`). Three failures behind a bound of one count as one, so that a new failure threshold of three needs two more
  (`CounterSpec.GrowLosesFailures`).

## Model

| member | source | states |
|---|---|---|
| AlertSchedule.ScheduleIsExact | probe/notification_strategy.go:124-148 | over every stream, strategy, factor and budget: an alert is sent after a round iff the length of the not-up stretch is one of r_1..r_max, given in closed form |
| AlertSchedule.TracksStep | probe/notification_strategy.go:78-148 | the invariant of a stretch (between two neighbouring alert rounds, or budget used up and silent) is kept by every not-up round |
| AlertSchedule.RescheduleHitsNext | probe/notification_strategy.go:78-121 | the incrementally computed next round is the next closed-form alert round |
| AlertSchedule.AlertsPassed | probe/notification_strategy.go:124-148 | the alerts sent in a stretch are the alert rounds passed, capped by the budget |
| AlertSchedule.SecondOrderBernoulli | probe/notification_strategy.go:101-112 | (1+f)^m >= 1 + f m(m+1)/2: the exponential schedule is never ahead of the incremental one |
| AlertSchedule.SlowerStrategiesAlertLater | probe/notification_strategy.go:78-121 | the k-th alert round of regular, increment and exponent are ordered |
| AlertSchedule.BackoffOrder | probe/notification_strategy.go:78-148 | on every stream at every round: alerts(exponent) <= alerts(increment) <= alerts(regular) <= budget |
| AlertSchedule.BookkeepingOfRun | probe/notification_strategy.go:64-148 | after every stream: failures counted, next round, interval and number of notifications in closed form, also when the budget is used up |
| NotificationStrategy.NotificationStrategyData.constructor | probe/notification_strategy.go:39-49 | a new machine is a reset one with the given settings |
| NotificationStrategy.NotificationStrategyData.Clone | probe/notification_strategy.go:52-61 | the copy shows the state of the machine |
| NotificationStrategy.NotificationStrategyData.Reset | probe/notification_strategy.go:64-70 | back to the fresh machine, settings kept |
| AlertSchedule.BudgetExceededIff | probe/notification_strategy.go:73-75 | on every stream: the budget counts as exceeded iff the stretch has reached the alert round behind the last one the budget pays for |
| NotificationStrategy.NotificationStrategyData.NextNotification | probe/notification_strategy.go:78-121 | refines Reschedule, whose meaning is RescheduleHitsNext |
| NotificationStrategy.NotificationStrategyData.ProcessStatus | probe/notification_strategy.go:124-148 | refines Process, whose meaning is ScheduleIsExact |
| ProbeSettings.Normalize | global/global.go:126-136 | a valid local value wins, then a valid global one, then the default |
| ProbeSettings.NormalizeInterval | global/probe.go:47-49 | a positive interval in the same order of preference, one minute by default |
| ProbeSettings.NormalizeThreshold | global/probe.go:52-57 | both thresholds are positive, each from its own source in that order of preference |
| ProbeSettings.NormalizeNotificationStrategy | global/probe.go:60-66 | strategy, factor and budget each on its own: local, then global, then default |
| CounterSpec.CounterRepresentation | probe/status_counter.go:46-75 | over every interleaving of appends and shrinking resizes the history is a suffix of the stream and the saturated count is its trailing run |
| CounterSpec.OpsKeepRepresentation | probe/status_counter.go:46-75 | the representation invariant, relative to the whole stream |
| CounterSpec.ThresholdComparisonIsExact | probe/base/base.go:121-134 | comparing the saturated count with a threshold within the bound is comparing the true run length |
| CounterSpec.OpsDecideIff | probe/status_counter.go:46-75 | after any appends and resizes, growing ones too: every threshold within the bound decides like the true run length of the stream iff the count is that length or has reached the bound |
| CounterSpec.ResizeDecidesIff | probe/base/base.go:168-173 | a new bound decides right for the stream iff the whole run has been counted, or as much of it as the new bound |
| CounterSpec.SafeToGrowIff | probe/base/base.go:168-173 | a first growth of the bound decides right for every history of operations that leads to the counter iff the count is below the old bound or not below the new one |
| CounterSpec.GrowLosesFailures | probe/status_counter.go:52-54 | three failures behind a bound of one: count one, true run three, after the bound grows to three |
| StatusCounters.StatusCounter.constructor | probe/status_counter.go:35-43 | an empty history, current outcome success, count zero |
| StatusCounters.StatusCounter.Grow | probe/status_counter.go:61 | append to a full slice moves it to a fresh, larger backing array with the same contents |
| StatusCounters.StatusCounter.AppendEntry | probe/status_counter.go:61 | Go's append: the entry is added, and nothing in front of the old end of the slice is written |
| StatusCounters.StatusCounter.PopFront | probe/status_counter.go:64-66 | the reslice drops the oldest entry and keeps the end of the slice |
| StatusCounters.StatusCounter.CountStatus | probe/status_counter.go:48-54 | the count restarts on a change and saturates at the bound |
| StatusCounters.StatusCounter.AppendStatus | probe/status_counter.go:46-67 | refines Append, and leaves everything an earlier clone can see unchanged |
| StatusCounters.StatusCounter.SetMaxLen | probe/status_counter.go:70-75 | refines Resize: the newest entries are kept |
| StatusCounters.StatusCounter.Clone | probe/status_counter.go:78-85 | the clone shows the same history although it shares the backing array |
| Pipeline.CounterOfRun | probe/base/base.go:206 | in every run the counter represents the outcome stream, bounded by the larger threshold |
| Pipeline.CheckIsNaive | probe/base/base.go:114-143 | the thresholds on the bounded counter decide like the unbounded trailing runs |
| Pipeline.StatusRefinement | probe/base/base.go:192-232 | for all streams and thresholds the computed status and previous status are the plain ones: Up or Down by the trailing run, otherwise the status of two rounds earlier |
| Pipeline.AlertOfRun | probe/base/base.go:211 | the alert machine of a run is the machine driven by the plain statuses |
| Pipeline.AlertOfRunIsDue | probe/base/base.go:205-222 | in every run an alert is sent exactly at the alert rounds of the current not-Up stretch |
| Pipeline.StatusHasEvidence | probe/base/base.go:121-134 | Up and Down never appear without an earlier run of as many equal outcomes as the threshold asks for |
| Pipeline.FallbackAlternates | probe/base/base.go:135-142 | below both thresholds the status alternates between the last two statuses |
| Pipeline.HysteresisIffSettled | probe/base/base.go:121-142 | while no threshold is reached the status stays iff the last two statuses agree |
| Alerting.NotifiesByRule | channel/channel.go:150-176 | end to end, for all settings and streams: a round notifies iff it is a recovery from Down, an alert round of a Down stretch, or a fall back to Init |
| Alerting.SilentIff | channel/channel.go:150-176 | any snapshot is passed over in three cases only: up and up or new before, still new, down at a round without an alert |
| Alerting.EdgeTriggeredExactly | channel/channel.go:150-176 | with a budget of one a round notifies on edges only, except a Down reached from Init after the first round |
| Alerting.EdgeTriggeredIffUnitSettings | probe/base/base.go:192-232 | notified exactly on status edges on all streams iff both thresholds and the budget are one |
| Alerting.UnitSettingsAreEdgeTriggered | channel/channel.go:150-176 | the default settings are edge-triggered on every stream |
| Alerting.SecondAlertIsNoEdge | channel/channel.go:169-176 | any budget of two or more has a stream with a notification that is no edge |
| Alerting.LevelTriggered | channel/channel.go:150-176 | unit thresholds, any budget: one notification per recovery and the alert rounds of each run of failures |
| Alerting.FailingRunFromSettledUp | channel/channel.go:150-176 | failures after a settled Up notify exactly at rounds F-1+r_k of the run, 1<=k<=budget |
| Alerting.SlowRecoveryStillAlerts | channel/channel.go:168-176 | successes below the success threshold continue the back-off schedule of a settled Down |
| Alerting.RecoveryIsNotifiedOnce | channel/channel.go:150-166 | successes after a settled Down notify exactly when the success threshold is reached |
| Alerting.ColdStart | probe/base/base.go:211 | failures from the start notify exactly at the alert rounds that are not below the failure threshold |
| Alerting.ColdStartIsReportedIff | probe/base/base.go:211 | such a probe is ever reported iff its last alert round is not below the failure threshold |
| Alerting.DownIsReportedIff | channel/channel.go:169-176 | after any run that ends in failures up to the threshold: further failures are ever notified iff the not-Up stretch has not gone past the last alert round |
| Alerting.UnsettledUpFallsBack | probe/base/base.go:142 | thresholds two: success, success, failure ends in Init and notifies |
| Alerting.EdgeAfterSlowSuccess | probe/base/base.go:211 | a success below its threshold and then the Down edge: notified iff round two is an alert round |
| Alerting.EdgeAfterSlowFailure | probe/base/base.go:211 | failures from the start, at the Down edge: notified iff the failure threshold is an alert round |
| Statistics.StatisticsConservation | probe/result.go:135-143 | total is the number of rounds and the sum of the counts, every status has its plain number of rounds, up and down time are interval times Up and not-Up rounds |
| Statistics.SlaIsShareOfUpRounds | probe/result.go:179-189 | after one round or more the SLA is 100 times the share of Up rounds, within 0 and 100 |
| Statistics.DownTimeIsStretchStart | probe/base/base.go:285-287 | while Down, the remembered time is the reading at the first round of the maximal Down stretch |
| Statistics.RecoveryDurationIsStretch | probe/base/base.go:282-293 | at a recovery the duration reaches from that reading to the recovering round, and is not negative when the clock never goes back |
| Statistics.DownRoundHasStretch | probe/base/base.go:282-293 | every Down round ends a maximal Down stretch, so the law covers every recovery |
| Statistics.RecoveryDurationOfRun | probe/base/base.go:282-293 | after every run the recovery time is that of the last recovery, from the first round of the Down stretch it ended |
| Statistics.NoRecoveryYet | probe/base/base.go:289-292 | no recovery time before the first direct change from Down to Up |
| Statistics.LatestDownTimeOfRun | probe/base/base.go:284-287 | after every run the remembered time is the reading of the last round that went to Down |
| Statistics.NoFallYet | probe/base/base.go:284-287 | no remembered time before the first round that goes to Down |
| Statistics.SlaWithoutTime | probe/result.go:182-187 | with no time counted, as before the first round, the SLA is 100 when Up and 0 otherwise |
| Restart.RestartIsUnnoticed | probe/base/base.go:159-173 | Config with unchanged settings on the persisted result of any run: the next round is that of the uninterrupted run |
| Restart.CounterOfRestart | probe/base/base.go:168-173 | for any stored result and new thresholds: the bound is the larger threshold and the count is the run length up to it, going on from the stored count |
| Restart.HistoryOfRestart | probe/status_counter.go:46-75 | the history is the end of the stored and later entries together, up to the new bound |
| Restart.StatusOfRestart | probe/base/base.go:114-143 | for any stored result, thresholds and stream the status is the plain one: by the runs carried over the restart, otherwise of two rounds earlier |
| Restart.NewThresholdsDecide | probe/base/base.go:168-173 | as many equal outcomes since the restart as a new threshold asks for decide the status |
| Restart.AlertOfRestart | probe/base/base.go:163-166 | the new alert settings are installed; from the first Up round on the machine is that of a run of its own |
| Restart.NewScheduleHolds | probe/base/base.go:163-166 | from the first Up round on an alert is sent iff the not-Up stretch is an alert round of the new settings |
| Restart.PlannedAlertStands | probe/base/base.go:163-166 | before it, nothing is sent until the round planned when the result was stored, and there iff the new budget allows |
| Restart.NotifiesByRuleSince | channel/channel.go:150-176 | from the first Up round on every round notifies iff the rule on the later outcomes says so |
| Restart.CountsGoOn | probe/result.go:135-143 | total and counts go on from the stored ones, each later round counted once |
| Restart.TimesGoOn | probe/result.go:135-143 | up and down time go on from the stored ones by the intervals of Up and of all rounds |
| Restart.RecoverySpansRestart | probe/base/base.go:282-293 | a Down that lasts over the restart is timed from its own beginning |
| Probers.ProbeResult.constructor | probe/result.go:56-85 | a new result: Init, empty counter of bound one, fresh default strategy, zero statistics |
| Probers.ProbeResult.Restore | probe/result.go:88-93 | a copy of the stored result: same view, own statistics map, shared history |
| Probers.ProbeResult.DoStat | probe/result.go:135-143 | refines DoStat, whose meaning over runs is StatisticsConservation |
| Probers.ProbeResult.DownTimeCalculation | probe/base/base.go:282-293 | refines DownTimeCalculation, whose meaning over runs is RecoveryDurationIsStretch |
| Probers.ProbeResult.Conclude | probe/base/base.go:221-226 | shifts the status and then updates clock fields and statistics, in that order |
| Probers.ProbeResult.Clone | probe/result.go:102-132 | the snapshot shows the result, owns its statistics map and shares the history |
| Probers.ProbeResult.Install | probe/base/base.go:159-173 | the settings go to the alert machine, the larger threshold bounds the history, nothing else changes |
| Probers.DefaultProbe.NewResultWithName | probe/result.go:88-99 | the stored result when there is one, otherwise a new one |
| Probers.DefaultProbe.Config | probe/base/base.go:146-173 | normalised settings, installed in a new result, the one every run starts from, or in the stored one, which stays isolated |
| Probers.DefaultProbe.CheckStatusThreshold | probe/base/base.go:114-143 | refines CheckStatusThreshold, whose meaning over runs is CheckIsNaive |
| Probers.DefaultProbe.Probe | probe/base/base.go:192-232 | one step of the pipeline; the snapshot shows the new state and nothing an earlier one can see is written |
| Probers.DefaultProbe.ProbeAgain | probe/base/base.go:192-232 | one more round keeps every earlier snapshot as it was |
| Probers.DefaultProbe.ProbeLoop | cmd/easeprobe/probe.go:83-103 | snapshot isolation over whole runs: at the end all snapshots still show the results of their own rounds |
| Channel.Channel.constructor | channel/channel.go:45-54 | a new channel is not watched and has issued nothing |
| Channel.Channel.CompareAndSwap | channel/channel.go:132 | the flag changes exactly when it had the expected value |
| Channel.Channel.NotifyAll | channel/channel.go:186-192 | one notification for each notifier |
| Channel.Channel.WatchEvent | channel/channel.go:127-192 | a loser touches nothing; the winner issues exactly the notifications of the results handled before the done signal, and then gives the flag back |
| Channel.RunIsDeliveredUnchanged | channel/channel.go:163-167 | resetting the strategy of a recovered result changes nothing for results of a run |
| WatcherGuard.FlagCountsWatchers | channel/channel.go:127-147 | in every reachable state of concurrent calls the flag is the number of watchers, at most one |
| WatcherGuard.SingleWatcher | channel/channel.go:132-140 | two goroutines never watch the same channel |
| WatcherGuard.LosersLeaveTheFlag | channel/channel.go:132-140 | while one watches, only its own store clears the flag and every compare-and-swap loses |
| WatcherGuard.SwapWinsIffUnwatched | channel/channel.go:132-135 | in every reachable state a call wins iff no goroutine watches, and loses otherwise |
| WatcherGuard.NextSwapWins | channel/channel.go:137-140 | after the store of the winner the next call wins |
| WatcherGuard.CanBeWatchedAgain | channel/channel.go:127-147 | from every reachable state a further call can come to watch the channel |
| Delivery.StepDelivers | cmd/easeprobe/probe.go:71-104 | every action of every goroutine keeps the delivery invariant |
| Delivery.ConsumedIsPrefix | channel/channel.go:143-150 | what a watcher has consumed from a prober is a prefix of what it produced, and nothing when the channel is not on its list |
| Delivery.WatcherDecidesByRule | channel/channel.go:143-192 | the decision on the i-th consumed result of a prober follows from its first i+1 outcomes by the end-to-end rule |
| Delivery.SaverConservation | cmd/easeprobe/report.go:52-65 | folded ++ buffered are exactly the accepted results of a prober in order, the buffer is bounded, the saved entry is the last folded result |
| Delivery.SavedBeforeSent | cmd/easeprobe/probe.go:85-93 | no result reaches a channel before the save channel has accepted it |
| Delivery.LeftBehindIsBounded | cmd/easeprobe/main.go:167-171 | an exited prober has sent everything; the saver misses at most a buffer of its results, a channel on its list at most as many as probers list it |
| Delivery.RoundsAreStarted | cmd/easeprobe/probe.go:79-103 | the end of the delay and every timer tick start exactly one round and nothing else does; a prober that waits or has exited has had at least one |
| Delivery.NothingConsumedUnwatched | channel/channel.go:132-150 | nothing is consumed from a channel before its watcher has taken the flag |
| Notifications.WatcherIssues | channel/channel.go:143-192 | what the watcher loop issues for the messages a channel has consumed is exactly those that call for a notification, each to every notifier, in order |
| Notifications.InterleavingIndependence | cmd/easeprobe/probe.go:83-93 | whatever the others do, the results consumed from a prober are those of its first n rounds run alone, and the notified ones are exactly the rounds the rule picks from their outcomes |
| Serving.Drain | cmd/easeprobe/probe.go:83-93 | everything on its way can be brought to the saver and the watchers without a further round |
| Serving.ProbingGoesOn | cmd/easeprobe/probe.go:83-103 | from every reachable state, also while the exit waits, some execution takes the running probers through any given further rounds and delivers all their results |
| Serving.AnyStreamsCanBeServed | cmd/easeprobe/probe.go:62-104 | from the start any streams of outcomes can be probed, saved and consumed by every listed channel before an exit |
| Shutdown.StepControls | cmd/easeprobe/main.go:224-235 | every action of every goroutine keeps the invariant of the exit sequence |
| Shutdown.TokenSendNeverBlocks | cmd/easeprobe/main.go:226-230 | the done channel of the probers is never full when the next token is sent |
| Shutdown.TokensAreConserved | cmd/easeprobe/main.go:167-230 | tokens queued plus exited probers are the tokens sent, within the capacity |
| Shutdown.NoSendToStoppedWatcher | channel/manager.go:133-138 | while a prober runs, no watcher has been told to stop and the saver is on |
| Shutdown.FinishedMeansStopped | cmd/easeprobe/main.go:224-235 | when the exit is over all probers, watchers and the saver have stopped and no token is left |
| Shutdown.StoppedStaysStopped | cmd/easeprobe/main.go:224-235 | after their done signals the saver folds nothing, a watcher consumes nothing and a prober does not probe |
| Shutdown.DoneReceiptsAreFinal | channel/manager.go:133-138 | probers and watched channels never come back and each done receipt takes exactly one away |
| Shutdown.SomeStepIsEnabled | cmd/easeprobe/main.go:224-235 | in every reachable state of the exit some step towards its end is enabled |
| Shutdown.ShutdownNeverDeadlocks | cmd/easeprobe/main.go:224-235 | from every reachable state of the exit it can finish, in a bounded number of steps |
| Shutdown.ExecutionsAreAccountedFor | cmd/easeprobe/probe.go:95-102 | every execution takes exactly as many steps as it takes off the work at its start and the rounds its timer ticks start |
| Shutdown.ExecutionsAreBounded | cmd/easeprobe/probe.go:95-102 | so no execution is longer than that |
| Capacities.FirstRoundsNeverBlock | cmd/easeprobe/main.go:167-171 | in their first rounds probers never wait for a reader: save channel and channel buffers have room |
| Capacities.ExitMayLeaveEverything | cmd/easeprobe/main.go:224-235 | for all setups and outcomes some execution finishes the exit with one result of each prober left unread everywhere |
| ResultStore.ResultData.SetResultData | probe/data.go:65-72 | exactly the entry of the name is replaced |
| ResultStore.ResultData.SaveLoop | cmd/easeprobe/report.go:49-65 | the store and all file writes of a saver that stops at the first done signal |
| ResultStore.StoreHoldsTheLatest | probe/data.go:65-90 | a query is answered with the last result received under the name, and as before when there was none |
| ResultStore.DoneWritesEverything | cmd/easeprobe/report.go:56-59 | the write at the done signal holds everything received before it |
| ResultStore.EverySignalWrites | cmd/easeprobe/report.go:56-63 | one write at the start and one at each tick and done signal, each of them the store of everything received before it |
| Filter.SLAFilter.constructor | report/filter.go:46-60 | a filter that asks for nothing, first page of a hundred |
| Filter.PageOfIndex | report/filter.go:125-129 | an index lies between the first and last index of a page iff it is page i/size+1: pages adjoin and do not overlap |
| Filter.SLAFilter.Filter | report/filter.go:132-172 | the count is the number of all matches on every page, and the result is the page of them |
| Filter.MatchesAreAsked | report/filter.go:140-163 | of a match everything asked for holds, criterion by criterion |
| Filter.NoMatchIsMissed | report/filter.go:140-168 | every prober of which everything asked for holds is a match |
| Filter.MatchesAppend | report/filter.go:136-169 | the matches of two lists are those of the lists one after the other |
| Filter.StatusesPartition | report/filter.go:152-154 | asking for each status in turn finds every match once |
| Filter.ContainsIffInfix | report/filter.go:140-142 | a text contains a part iff it can be cut into something, the part, and something |
| Filter.PageIsSlice | report/filter.go:125-169 | page p of size s is exactly the slice from (p-1)s to ps of the matches |
| Filter.PagesPartitionMatches | report/filter.go:111-172 | the announced pages one after the other are all matches in order |
| Filter.LaterPagesAreEmpty | report/filter.go:111-172 | every page behind the announced ones is empty |
| Filter.LastPageIsEmptyIff | report/filter.go:111-115 | the last announced page is empty iff the page size divides the number of matches |
| MetricName.FirstLetter | metric/prometheus.go:210-216 | the first position that holds a letter |
| MetricName.RemoveInvalidChars | metric/prometheus.go:206-225 | the valid characters from the first letter on |
| MetricName.CleanIsClear | metric/prometheus.go:206-225 | something is left iff the text holds a letter, it starts with a letter and is valid, and cleaning is idempotent |
| MetricName.ValidMetricCharIff | metric/prometheus.go:200-203 | the valid bytes, listed one by one |
| MetricName.ValidMetricNameIff | metric/prometheus.go:190-192 | accepted iff not empty, of listed bytes only, and not beginning with a digit |
| MetricName.KeptBytes | metric/prometheus.go:218-223 | each listed byte is kept as often as it stands behind the first letter, every other byte is dropped |
| MetricName.GetName | metric/prometheus.go:172-187 | the loop that appends and strips underscores joins the non-empty cleaned fields |
| MetricName.KeyIsValidIff | metric/prometheus.go:172-192 | the name is accepted iff some field holds a letter, and is empty otherwise |
| MetricName.KeysCompose | metric/prometheus.go:172-187 | naming two groups of fields and then the two names gives the name of all fields |
| EscapeQuote.EscapeQuote | global/global.go:317-333 | the successive replacements compute one map over the characters |
| EscapeQuote.ReplacementsAreOneMap | global/global.go:322-332 | no replacement disturbs what an earlier one has produced |
| EscapeQuote.UnescapeEscaped | global/global.go:317-333 | unescaping gives the text back, up to removed backticks |
| EscapeQuote.EscapedHasNoBareQuote | global/global.go:317-333 | read from the left, every quote in the result is escaped |
| EscapeQuote.EscapedEqualIff | global/global.go:317-333 | two texts escape alike iff they differ in backticks only |
| EscapeQuote.EscapedLength | global/global.go:322-327 | one character more for each quote and backslash, one less for each backtick |
| EscapeQuote.UnchangedIffPlain | global/global.go:322-327 | a text is unchanged iff it has none of the four characters |

## Left out

- The concrete probes and the notifiers: a probe is an arbitrary outcome and message, a notification an issued event. `go n.Notify` promises no order of delivery, so none is claimed beyond the order of issue.
- YAML and JSON load and save, backups, configuration merging, web server, log files, PID files: library and operating system behaviour.
- The evaluator, XPath and regular expression extraction: their meaning is in third-party libraries.
- Restarting with changed settings in the middle of a stretch: the closed form of the alert rounds assumes the settings of the whole stretch. Between the planned alert and the first Up round the schedule is not given in closed form.
- `CleanData`, and the data file itself: it is taken to give back what was written, except the fields it excludes.
- The metrics export, the log calls, and the fields StartTime, RoundTripTime, Message, Name and Endpoint of a result; `Probe` with no probe function, which returns the result without a round.
- The push sink of the metrics: it receives from the same done channel as the saver, so the exit sequence is modelled for pull mode.
- Probers with status Bad: they are not started and get no token, so the protocol has only the probers that run; the capacities may be larger than their number.
- The `wg.Add` calls inside the prober and watcher goroutines: they are taken to have run before the exit sequence waits.
- Channel names on a prober's list that do not exist, and duplicate prober names: lists are of existing channels, and probers are told apart.
- Waiting times: the delay at the start and the timer are steps that may happen at any time.
- The web server shutdown at the start of the exit.
- Machine overflow of `int` and `time.Duration`, and rounding of floating point: integers are unbounded and the SLA is a real number.
- The order in which a map of notifiers or channels is walked: notifiers are a list, the walk over the channels in the exit is any order.
- Channel.Channel.WatchEvent: runs on a finite list of events in the order the select picks them; when the list ends without a done signal the watcher is still watching.
- Probers.DefaultProbe.Config: leaves out the probe timeout, the labels and the default channel.
- StatusCounters.StatusCounter.SetMaxLen: bounds are not negative; the source would fail on a longer history otherwise.
- ResultStore.ResultData.SetResultData: stores the snapshot as a value; that snapshots share no changing state is `Probers.DefaultProbe.ProbeLoop`. The mutex is not modelled.
- Filter.SLAFilter.Filter: a missing stored result is excluded for the probers that pass the name and kind criteria, where the source would dereference nil; texts are compared without regard to encoding, and the percentage is a field of the stored result.
- MetricName.RemoveInvalidChars: texts are lists of bytes, one `char` each.
- EscapeQuote.EscapeQuote: `strings.ReplaceAll` is modelled for patterns of one character, the only ones in the table.
- `Check` of the filter, the HTML text, titles, enum names and durations as text: easy members.
