# Verified models of the operations backend

This project models the stateful engines of the operations backend in Dafny and proves what each of them
keeps, over every input, every interleaving and every run. `dafny verify dfyconfig.toml` checks all of it.

Money is exact (`real`), times are integers that never run backwards, tables are maps keyed by their unique
columns, and a query is a filter over a table whose rows come back in any order. Pool size, caps, queue size and
rate limits are parameters.

**Billing export pipeline** (`ExportModel`, `ExportSafety`, `ExportRuns`, `ExportProgress`, `ExportOutcomes`,
`ExportService`).
Submission, a bounded queue, any number of workers, one counting semaphore per user, cancel, and the task rows.
Each atomic stretch of the Go code is one event; every sequence of events is a run. The class `Service` performs the
same steps in place. Cancelled is not a final status: the worker saves the whole row without looking at it, so a
task cancelled while it is queued runs all the same. `EdgesExact` gives the complete status graph, with and without
failing writes.

**Realtime hub and limiter** (`Hub`, `Limiter`). The hub's index from topics to clients and its life cycle under
any interleaving of connects, removals, broadcasts and direct sends; the limiter's four tables against a reference
that has neither tables nor garbage collection. The sliding bound that holds, and is met for every limit, is
2 * limit - 1 messages in a closed minute, that is 199 for the shipped limit of 100.

**Cost and profit** (`Grouping`, `UpstreamCost`, `ProfitOverview`, `CostComparison`, `MonthlyStatements`). Generic
theory of one-pass grouping, the v3 statement, the v4 overview, and how the two price the same logs.

**Upstream cache** (`TickScheduler`, `UpstreamCache`, `UpstreamOverview`, `UpstreamFreshness`). The round robin that
fills the table, the table itself with pruning and both lookups, the overview and the exported statement assembled
from it, and, over runs in which logs keep arriving, how a served row lags behind the live statement.

**Minute buckets** (`MinuteBuckets`, `ChannelHealth`, `ChannelSummary`). The minute summaries of an append-only log,
the health roll-up over them, and the batched read of each channel's newest minutes.

**Alerts** (`AlertStatus`, `AlertSuppression`, `AlertRecovery`, `AlertResolver`). Suppression over whole runs with
acknowledging and resolving requests in between, and which thresholds never fire an alert that the resolver clears in
the same tick.

**Calendar and printers** (`Calendar`, `Decimals`, `Printers`). Shanghai months, thousands separators, money, the
buffer integer printer, and SQL literal lists.

Where code and comments disagree the code is followed:

- The five-minute health roll-up is documented as five minute rows; it reads six (the hourly one 61), because both
  ends of the range are included (internal/monitor/health.go:209-212), so consecutive roll-ups share a minute
  (`ChannelHealth.RollUpsOverlap`). Its fallback stops before the last of them (internal/monitor/health.go:330).
- `PeriodBounds` returns an exclusive end, but the v3 query includes its end, so statements of consecutive months both
  count the second at which they meet (`MonthlyStatements.ConsecutiveStatements`).
- The comment on the semaphore send calls it non-blocking; it blocks when the user's slots are taken, and the model
  lets it.

Properties that are false in general come with the exact condition under which they hold, and with inputs that break
them:

- v3 channel names depend on log order, unless each channel has one name (`NamesOrderFreeIff`).
- A direct send can hit a closed channel: exactly when the client was removed after the test (`DirectSendPanicsIff`).
- The cap on open connections survives any number of attempts at an instant exactly when the address's counter was
  not dropped while it had open connections (`CapHoldsIff`); every positive cap can be passed (`QuietBreaksCap`).
- Without the key store, alerts that are still active keep their distance exactly as long as no acknowledging request
  writes an alert that was resolved, and closely followed by another, after the request had read it
  (`StoredSpacingIff`). The handler's own test rules that out unless it is interrupted (`StoredSpacing`); interrupted,
  every rule and distance can be broken (`RaceBreaksSpacing`).
- v4 costs at most what v3 does for all quotas exactly when, in every group with a positive discount, a log without a
  ratio meets a ratio of at least 1 or no ratio at all (`NeverDearerIff`).
- The breakdowns of a statement served from the cache add up to its totals exactly when no log of the period escaped
  the cached row (`CachedBreakdownsIff`, `ReturnedSumsIff`), and its rate fits its totals exactly when the cached cost
  is positive or the live rate is 0 (`CachedRateAgreesIff`); a vendor's first charge of the month breaks both
  (`RateMismatchReached`).
- The batched read of minute rows can lose a wanted row exactly when the sentinel -1 is the smallest lower bound and
  a wanted row lies before some other one (`CanLoseIff`), which the minute ticks never bring about.
- Both integer printers fail at the smallest 64-bit value only (`SepRoundTripIff`, `ItoaRoundTripIff`), and the clause
  of no values reads as one empty string (`ClauseRoundTripIff`).

With rows written more than 150 seconds apart at most two pairs are ever served from the upstream cache at once, so an
overview of three vendors or more always needs a live calculation (`AtMostTwoServed`); with rows 300 seconds apart two
are served together only at multiples of 300 seconds (`TwoServedOnGrid`).

## Model

| member | source | states |
|---|---|---|
| ExportService.Service.CheckLimit | internal/billing/export_worker.go:103-110 | admits a submission exactly when fewer than cap rows of the user are running |
| ExportService.Service.CreateTask | internal/dal/ops_repo.go:780-786 | writes a pending, otherwise blank row of the admitted user and the shared task object, and keeps the pipeline invariant |
| ExportService.Service.Offer | internal/billing/export_worker.go:131-139 | enqueues at the tail exactly when there is room, otherwise leaves the row behind |
| ExportService.Service.CancelPending | internal/dal/ops_repo.go:860-871 | cancels the row, with the operator's name and the time, exactly when it is pending, and reports how many rows it changed |
| ExportService.Service.Receive | internal/billing/export_worker.go:150-160 | an idle worker takes the head of the queue |
| ExportService.Service.GetUserSem | internal/billing/export_worker.go:57-66 | creates a user's semaphore empty, once |
| ExportService.Service.Enter | internal/billing/export_worker.go:164-167 | enters exactly when fewer than cap workers are inside for that user |
| ExportService.Service.MarkRunning | internal/billing/export_worker.go:171-179 | saves the row as running since now at progress 0, whatever the row's status is |
| ExportService.Service.GenerateStatement | internal/billing/export_worker.go:184-189 | hands the worker an arbitrary outcome and changes nothing else |
| ExportService.Service.MarkEnded | internal/billing/export_worker.go:191-210 | saves success with the outcome's file, size and full progress, or failure with its message and no progress, at the current time; nothing else changes |
| ExportService.Service.Leave | internal/billing/export_worker.go:167 | the deferred release finds the worker's own slot and frees it |
| ExportSafety.InvKept | internal/billing/export_worker.go:98-211 | every event keeps the whole invariant: domains, places, exact semaphores, row agreement, row versus task object |
| ExportRuns.SemaphoreCountsWorkers | internal/billing/export_worker.go:57-66 | after any run a user's occupied slots are the workers inside and at most cap |
| ExportRuns.OnePlacePerTask | internal/billing/export_worker.go:98-160 | a task is being submitted, or queued once, or in one worker's hand, never two of these |
| ExportRuns.TakenAtMostOnce | internal/billing/export_worker.go:150-160 | no task is taken off the queue twice in a run |
| ExportRuns.EdgesExact | internal/billing/export_worker.go:163-211 | the status changes that some run makes are exactly the graph's edges, plus four jumps if writes can fail |
| ExportRuns.StepEdges | internal/dal/ops_repo.go:801-804 | one event moves a row along one edge; cancelled becomes running only at the save of the worker that holds the task |
| ExportRuns.EndedIsAbsorbing | internal/billing/export_worker.go:191-211 | a row in success or failed never changes again |
| ExportRuns.RowsAgree | internal/dal/ops_repo.go:859-871 | progress, times, message and file of every row agree with its status, after any run |
| ExportRuns.RunningRowsWithinSlots | internal/dal/ops_repo.go:806-814 | without failed writes the count that admission uses never exceeds the slots really held |
| ExportRuns.RefusedPushOrphans | internal/billing/export_worker.go:136-139 | a push refused by a full queue leaves a pending row that nothing will pick up |
| ExportRuns.OrphanOnlyByRefusal | internal/billing/export_worker.go:131-139 | nothing else creates such a row |
| ExportRuns.OrphanForever | internal/billing/export_worker.go:136-139 | such a row stays pending or gets cancelled by hand, and never runs |
| ExportProgress.SomeWorkerMoves | internal/billing/export_worker.go:150-167 | no deadlock: while work is left some worker can act, for any mix of users and any cap |
| ExportProgress.MovesUseWork | internal/billing/export_worker.go:150-211 | without submissions the worker actions of a run are exactly the work it removes |
| ExportProgress.QueuedTasksEnd | internal/billing/export_worker.go:150-211 | when no worker can act any more, every task that was queued or held has ended |
| ExportProgress.CanDrain | internal/billing/export_worker.go:150-211 | from every reachable state as many worker actions as there is work lead to none |
| ExportOutcomes.EndedRowIsGenerated | internal/billing/export_worker.go:184-210 | after any run a success row carries the file and size, and a failed row the message, of a statement generated in the hand of the worker that held the task |
| ExportOutcomes.GeneratedOnce | internal/billing/export_worker.go:150-189 | in no run is a statement generated twice for one task |
| Limiter.RateLimiter.AllowConn | internal/realtime/limiter.go:96-107 | collects, then admits below the cap and stamps the address |
| Limiter.RateLimiter.ReleaseConn | internal/realtime/limiter.go:109-117 | counts down and deletes the entry of an address at zero |
| Limiter.RateLimiter.AllowMsg | internal/realtime/limiter.go:119-130 | opens a window strictly after the old one ended, counts, and admits up to the limit |
| Limiter.RateLimiter.GcLocked | internal/realtime/limiter.go:132-145 | removes exactly the entries older than two minutes |
| Limiter.CollectedIff | internal/realtime/limiter.go:132-145 | an entry survives collection exactly for two minutes after its stamp or the end of its window, and keeps its value |
| Limiter.AdmittedIsKept | internal/realtime/limiter.go:119-145 | the admitted messages are those of the table-free window reference, whatever was collected |
| Limiter.CollectionInvisible | internal/realtime/limiter.go:132-145 | connection traffic and every collection leave all message decisions unchanged |
| Limiter.WindowsGood | internal/realtime/limiter.go:119-130 | each window lets at most the limit through, and windows start more than a minute apart |
| Limiter.MinuteBound | internal/realtime/limiter.go:119-130 | any closed minute sees at most 2 * limit - 1 messages of an address |
| Limiter.MinuteBoundMet | internal/realtime/limiter.go:119-130 | for every positive limit a history reaches the bound |
| Limiter.CounterBound | internal/realtime/limiter.go:96-117 | the counter never exceeds the cap nor the open connections |
| Limiter.ConnTablesRun | internal/realtime/limiter.go:96-138 | both connection maps have the same keys, and counters are positive |
| Limiter.RefusedOnlyWhenFull | internal/realtime/server.go:148-161 | an address is refused only while at least cap of its connections are open |
| Limiter.CounterExact | internal/realtime/limiter.go:132-138 | counter and open connections agree exactly when the address was not evicted meanwhile |
| Limiter.CapUnlessEvicted | internal/realtime/limiter.go:96-107 | as long as the address is not evicted its open connections stay within the cap |
| Limiter.CapHoldsIff | internal/realtime/limiter.go:96-138 | for every cap and history, attempts at one instant never pass the cap exactly when the counter was not dropped while connections were open, before or by the first attempt |
| Limiter.EvictedPassesCap | internal/realtime/limiter.go:132-138 | after an eviction as many attempts as the cap lead past it, at any instant |
| Limiter.QuietBreaksCap | internal/realtime/limiter.go:132-138 | for every positive cap, one connection and two quiet minutes are enough |
| Hub.HubObject.ServeTopic | internal/realtime/server.go:164-183 | gives a fresh id, fixes the subscriptions and hands the client over for registration |
| Hub.HubObject.HandleRegister | internal/realtime/hub.go:110-119 | registers the client and indexes it under each of its topics |
| Hub.HubObject.HandleUnregister | internal/realtime/hub.go:120-134 | removes a registered client from the index, drops topics that become empty, closes once |
| Hub.HubObject.HandleBroadcast | internal/realtime/hub.go:135-145 | appends the message to exactly the registered clients' buffers with room, changes no other, reports the slow clients, and meets no closed channel |
| Hub.HubObject.SendNow | internal/realtime/hub.go:179-184 | the send behind the test: appends on an open channel with room, reports a slow client, panics on a closed channel |
| Hub.HubObject.SendRaw | internal/realtime/hub.go:171-185 | uninterrupted it never panics |
| Hub.HubObject.TakeNext | internal/realtime/server.go:226-236 | the writer takes the oldest message |
| Hub.DeliveredInOrder | internal/realtime/hub.go:135-145 | over any run what was taken out, followed by what is buffered, is in order the sequence of messages accepted, and the buffer keeps within its room |
| Hub.HubObject.TopicClients | internal/realtime/hub.go:248-255 | the snapshot for a topic lists each subscribed client once and no other |
| Hub.HubConsistent | internal/realtime/hub.go:105-148 | after any run the index is exact, no topic is empty, registered clients are open, nobody closes twice |
| Hub.IndexedFanOut | internal/realtime/hub.go:243-256 | fan-out over the index reaches exactly the clients a filter over all clients would |
| Hub.BroadcastNeverPanics | internal/realtime/hub.go:135-145 | the broadcast branch never sends on a closed channel |
| Hub.DirectSendPanicsIff | internal/realtime/hub.go:171-185 | a direct send hits a closed channel exactly when the hub removed the client after the test |
| Hub.DirectSendCanPanic | internal/realtime/hub.go:171-185 | such an interleaving exists |
| Hub.OvertakenUnregister | internal/realtime/hub.go:107-134 | an unregister handled before its register is lost, and the client stays |
| UpstreamCost.LogCostMeaning | internal/billing/upstream_cost.go:126-139 | the cost undoes the group ratio and applies the discount; it is zero exactly without quota or discount |
| UpstreamCost.PriceLog | internal/billing/upstream_cost.go:288-312 | ratio and discount default to 1 when missing or not positive, the latter with a mark |
| UpstreamCost.LineMeans | internal/billing/upstream_cost.go:288-305 | cost * ratio = quota / 500000 * discount; a missing or non-positive ratio or discount prices as 1 |
| UpstreamCost.CalcUpstreamStatement | internal/billing/upstream_cost.go:215-382 | one pass computes the statement function, or the empty statement for a vendor without channels |
| UpstreamCost.StatementDescribes | internal/billing/upstream_cost.go:278-368 | totals, three groupings, first names, profit, rate and reason are those of the logs |
| UpstreamCost.TotalMeans | internal/billing/upstream_cost.go:284-312 | requests, tokens and revenue of a total are the counts and sums of its logs' columns |
| UpstreamCost.EntriesAreTotals | internal/billing/upstream_cost.go:314-358 | every entry is the total of the logs of its UTC day, channel or model |
| UpstreamCost.BreakdownsConserve | internal/billing/upstream_cost.go:314-379 | dates, channels and models each sum to the totals, however they are listed |
| UpstreamCost.OrderIrrelevant | internal/billing/upstream_cost.go:284-379 | the log order changes nothing but, possibly, channel names |
| UpstreamCost.NamesOrderFreeIff | internal/billing/upstream_cost.go:329-336 | channel names are order-free exactly when no channel carries two names |
| UpstreamCost.PeriodsMerge | internal/billing/upstream_cost.go:263-267 | statements over [a, b] and [b + 1, c] merge entry by entry into [a, c] |
| MonthlyStatements.ConsecutiveStatements | internal/billing/export_worker.go:311-324 | exported statements of consecutive months count the logs of the shared second twice |
| ProfitOverview.AddRow | internal/billing/profit_overview.go:158-243 | one row into the totals, the users and the four maps, an unmapped channel at discount 1 |
| ProfitOverview.CalcProfitOverview | internal/billing/profit_overview.go:144-277 | totals, rate, user count, slices in falling order of profit, days rising, and the best ten models, none of those left out having earned more |
| ProfitOverview.RowMeans | internal/billing/profit_overview.go:158-166 | a row's revenue and cost in terms of quota, ratio and discount, with 1 for an unmapped channel |
| ProfitOverview.UnmappedIsDefault | internal/billing/profit_overview.go:160-163 | an unmapped channel counts like one without a vendor at discount 1, in every figure |
| ProfitOverview.UnmappedCost | internal/billing/profit_overview.go:160-167 | unmapped rows cost quota / 500000 / ratio altogether |
| ProfitOverview.TotalMeans | internal/billing/profit_overview.go:166-242 | the columns of a total; only users have tokens |
| ProfitOverview.LinesAreTotals | internal/billing/profit_overview.go:171-242 | every line is the total of the rows of its user, its vendor's channels, its model or its UTC day |
| ProfitOverview.LineExistsIff | internal/billing/profit_overview.go:171-242 | a line exists exactly when a row has its user, vendor, model or day, and none without a name |
| ProfitOverview.UsersAndDaysConserve | internal/billing/profit_overview.go:171-242 | user lines and day lines sum to the overview's totals |
| ProfitOverview.VendorsAndModelsConserve | internal/billing/profit_overview.go:188-227 | vendor lines sum to the mapped rows, untruncated model lines to the named rows |
| ProfitOverview.LinesConsistent | internal/billing/profit_overview.go:181-242 | every line ends with profit = revenue - cost and the rate of its final sums |
| ProfitOverview.DroppedEarnedLess | internal/billing/profit_overview.go:260-267 | no dropped model earned more than one of the ten that are kept |
| CostComparison.VendorLineAgainstStatement | internal/billing/profit_overview.go:116-206 | v4's vendor line over [s, e) has v3's requests and revenue over [s, e - 1], and a cost no larger, equal exactly when charges meet no refund, no larger ratio and a positive discount |
| CostComparison.RowsCompare | internal/billing/profit_overview.go:116-129 | the same for any set of logs and its grouped rows |
| CostComparison.RowCostAtMost | internal/billing/upstream_cost.go:126-139 | one grouped row against its logs, with the exact condition for equality |
| CostComparison.NeverDearerIff | internal/billing/profit_overview.go:116-129 | for fixed groups and ratios v4 charges at most what v3 does, for all non-negative quotas, exactly when the ratios are covered |
| CostComparison.UncoveredDearer | internal/billing/profit_overview.go:116-129 | a charge on any uncovered log and none elsewhere makes v4 dearer |
| TickScheduler.TickState.PickNext | internal/billing/upstream_summary_tick.go:249-281 | returns the current pair and advances; an empty list changes nothing |
| TickScheduler.EveryPairOnce | internal/billing/upstream_summary_tick.go:249-281 | from any state the next 2n calls choose each vendor and period exactly once |
| TickScheduler.SteadyInterval | internal/billing/upstream_summary_tick.go:249-281 | the choice repeats after exactly 2n calls |
| UpstreamCache.UpstreamTable.RunOnce | internal/billing/upstream_summary_tick.go:213-247 | the state advances even when the calculation fails; success stores one row in the current bucket |
| UpstreamCache.UpstreamTable.Prune | internal/dal/cache_upstream_summary.go:137-149 | removes exactly the rows older than the retention, 30 days by default |
| UpstreamCache.UpstreamTable.GetLatest | internal/dal/cache_upstream_summary.go:70-86 | finds the newest fresh row of a pair; an empty key finds nothing |
| UpstreamCache.UpstreamTable.ListLatest | internal/dal/cache_upstream_summary.go:92-135 | agrees with the newest fresh row at every pair, so with the single lookup at every non-empty key |
| UpstreamCache.LookupIsLastWrite | internal/dal/cache_upstream_summary.go:38-86 | over any run of writes and prunes a lookup is the pair's last write, exactly while its bucket is fresh |
| UpstreamCache.HitIsRecent | internal/dal/cache_upstream_summary.go:70-86 | what is served was written at most maxAge seconds ago |
| UpstreamCache.PruneKeepsServable | internal/dal/cache_upstream_summary.go:140-149 | pruning changes no lookup with an age limit up to a day |
| UpstreamCache.AtMostTwoServed | internal/billing/upstream_cache.go:66-68 | with writes over 150 seconds apart never three vendors are served at once |
| UpstreamCache.TwoServedOnGrid | internal/billing/upstream_cache.go:66-68 | with writes at least 300 seconds apart two vendors are served together only at multiples of 300 seconds |
| UpstreamOverview.SortVendors | internal/billing/upstream_cache.go:234-245 | the in-place exchange sort orders by requests, most first, and permutes |
| UpstreamOverview.GetOverview | internal/billing/upstream_cache.go:43-173 | sorted permutation of the rated entries, stale flag, cache time and generation time |
| UpstreamOverview.ListedIff | internal/billing/upstream_cache.go:86-147 | listed are exactly the vendors with a cached row or a successful calculation, with those totals |
| UpstreamOverview.OverviewMeaning | internal/billing/upstream_cache.go:86-157 | each vendor at most once; stale exactly when a listed vendor was computed live |
| UpstreamOverview.OverviewFigures | internal/billing/upstream_cache.go:86-152 | the listed figures are exactly those of the cached row, or of the live calculation where there is none, with the rate of their profit and cost |
| UpstreamOverview.LatestMeans | internal/billing/upstream_cache.go:89-92 | the cache time is the newest bucket used, 0 without any |
| UpstreamOverview.CachedBreakdownsIff | internal/billing/upstream_cache.go:191-232 | after a hit the live breakdowns add up to the returned totals exactly when the cached requests, cost and revenue are the live ones |
| UpstreamOverview.CachedRateAgreesIff | internal/billing/upstream_cache.go:219-225 | the returned rate fits the returned totals exactly when the cached cost is positive or the live rate is 0 |
| UpstreamFreshness.ServedIsStatement | internal/billing/upstream_summary_tick.go:213-247 | over any run a served row is the statement of the logs its tick saw, stored at most 300 seconds ago |
| UpstreamFreshness.RowLags | internal/billing/upstream_summary_tick.go:225-243 | such a row never counts or charges more than the live statement, and agrees with it exactly when no log is missing |
| UpstreamFreshness.ExportLags | internal/billing/export_worker.go:311-324 | the same for an exported statement read in the month of the pick, with the period's own bounds |
| UpstreamFreshness.ReturnedSumsIff | internal/billing/upstream_cache.go:214-226 | its breakdowns add up exactly when nothing is missing |
| UpstreamFreshness.OverviewLags | internal/billing/upstream_cache.go:86-142 | the same for a vendor of the overview |
| UpstreamFreshness.LastMonthLacks | internal/billing/upstream_summary_tick.go:42-50 | with no later logs a last-month row lacks exactly the logs of the second that ends the live query |
| UpstreamFreshness.RateMismatchReached | internal/billing/upstream_cache.go:219-225 | after every first charge that is not sold at cost the served rate does not fit the served totals |
| MinuteBuckets.SummaryCache.ByChannel | internal/sync/sync_logs_summary.go:166-230 | groups the logs of a window by channel, active channels only |
| MinuteBuckets.SummaryCache.Sync | internal/sync/sync_logs_summary.go:41-71 | writes the current minute's global row and each active channel's row with the counts of their logs, from two queries at two moments, and no other row |
| MinuteBuckets.RowIsLastTick | internal/sync/sync_logs_summary.go:41-71 | a row is exactly the tally of the logs that its query saw in the last tick of its minute |
| MinuteBuckets.TallyDescribes | internal/sync/sync_logs_summary.go:166-195 | errors are the logs of kind 5, successes those of kind 2, quota comes from kinds 2 and 6, tokens from all |
| MinuteBuckets.RowDescribes | internal/sync/sync_logs_summary.go:41-71 | so a row of any run has the counts and sums of the logs of its minute that its last tick saw |
| MinuteBuckets.NeverOverCounts | internal/sync/sync_logs_summary.go:47-50 | no row over-counts; a row is exact precisely when its minute got no log after its last tick |
| ChannelHealth.TopPerChannel | internal/monitor/health.go:241-255 | the first detail of a channel is one with the most requests |
| ChannelHealth.AggregateFromCache | internal/monitor/health.go:195-304 | one health row per channel with requests: its sums, error rate, balance and status with their defaults, percentiles of a busiest minute |
| ChannelHealth.SumOverIsRange | internal/monitor/health.go:201-212 | the SUM query, in any row order, is the sum over the minutes from start to bucketTS included |
| ChannelHealth.RollUpIsRaw | internal/monitor/health.go:195-304 | with exact rows the roll-up is the raw aggregate over [start, bucketTS + 60) |
| ChannelHealth.RawDescribes | internal/monitor/health.go:318-350 | the raw aggregate has a channel exactly when it has a log, with the numbers of its errors and successes and their rate |
| ChannelHealth.ExactIffSeen | internal/sync/sync_logs_summary.go:41-71 | the rows of a range are exact precisely when no tick missed a log of their minutes |
| ChannelHealth.RollUpBeyondFallback | internal/monitor/health.go:318-332 | the roll-up exceeds the fallback by exactly the minute of bucketTS |
| ChannelHealth.RollUpsOverlap | internal/monitor/health.go:209-212 | roll-ups of consecutive buckets count their common minute twice |
| ChannelHealth.ReachableRowsSane | internal/sync/sync_logs_summary.go:206-228 | rows of any run count no more errors than requests |
| ChannelHealth.RateBetween | internal/monitor/health.go:268-273 | the rolled-up error rate lies between the extreme rates of the non-empty minutes |
| ChannelSummary.ListLatest | internal/dal/cache_logs_summary.go:113-169 | every channel's rows in its newest n slots, in order and no others, unless some order of visits can lose a row |
| ChannelSummary.SlotsMean | internal/dal/cache_logs_summary.go:135-165 | the slots are the whole minutes from the newest bucket back to n - 1 minutes before |
| ChannelSummary.LowerBound | internal/dal/cache_logs_summary.go:135-142 | the running minimum over some order of the channels; a lower bound and one of the thresholds |
| ChannelSummary.CanLoseIff | internal/dal/cache_logs_summary.go:135-148 | some order loses a wanted row exactly when the sentinel is the smallest threshold and a wanted row lies before another |
| ChannelSummary.RightOnEveryRun | internal/dal/cache_logs_summary.go:135-142 | on every cache that the ticks can fill no order loses a row |
| ChannelSummary.SentinelCanCollide | internal/dal/cache_logs_summary.go:136-141 | off the minute grid a read can lose a row |
| AlertSuppression.AlertStore.ShouldSuppress | internal/monitor/alert_engine.go:308-337 | suppresses on a live key, or on an active alert within the longer of duration and one hour |
| AlertSuppression.AlertStore.Hit | internal/monitor/alert_engine.go:434-454 | one hit creates an alert and marks its subject exactly when it is not suppressed |
| AlertSuppression.AlertStore.UpdateStatus | internal/dal/ops_repo.go:330-345 | sets any status on any alert and changes nothing else |
| AlertSuppression.RedisSpacing | internal/monitor/alert_engine.go:310-349 | with keys, alerts of one rule and subject are at least the first one's quiet time apart, over any run |
| AlertSuppression.AnHourApart | internal/monitor/alert_engine.go:339-349 | hence at least an hour |
| AlertSuppression.KeyedFiresIff | internal/monitor/alert_engine.go:310-349 | with keys, on every run, a hit creates an alert exactly when every earlier alert of its subject lies at least its own rule's duration and an hour back |
| AlertSuppression.StoredFiresIff | internal/monitor/alert_engine.go:322-336 | without keys a hit creates an alert exactly when every firing, acknowledged or escalated one of its subject is older than the duration and an hour |
| AlertSuppression.AlertStore.ReadForAck | internal/api/handlers_monitor.go:202-214 | refuses an absent and a resolved alert, else notes the alert to update |
| AlertSuppression.AlertStore.Acknowledge | internal/api/handlers_monitor.go:194-220 | uninterrupted, acknowledges exactly the alerts that are present and unresolved |
| AlertSuppression.AlertStore.ResolveAlert | internal/api/handlers_monitor.go:222-238 | resolves a present alert whatever its status |
| AlertSuppression.UpdateKeepsIff | internal/dal/ops_repo.go:330-345 | the raw update keeps the spacing of active alerts exactly unless it makes an inactive alert active that another one followed closely |
| AlertSuppression.StoredSpacingIff | internal/monitor/alert_engine.go:322-336 | without keys, on every run, the spacing of active alerts holds throughout exactly when no late acknowledging update occurs |
| AlertSuppression.StoredSpacing | internal/api/handlers_monitor.go:202-215 | it holds on every run whose acknowledging requests are not interrupted between test and update |
| AlertSuppression.RaceBreaksSpacing | internal/api/handlers_monitor.go:202-215 | interrupted, every rule, subject and distance within the quiet time gives two active alerts that close |
| AlertRecovery.EvalErrorRate | internal/monitor/alert_engine.go:410-457 | fires exactly the unsuppressed channels with requests whose rate hits the threshold |
| AlertRecovery.EvalBalanceLow | internal/monitor/alert_engine.go:460-493 | fires exactly the unsuppressed channels whose balance hits the threshold |
| AlertRecovery.ThresholdLaws | internal/monitor/alert_engine.go:255-270 | the five comparisons against each other, and no hit without an operator |
| AlertRecovery.Baselines | internal/monitor/alert_engine.go:514-527 | the two-pass map holds the average of each channel's positive samples |
| AlertRecovery.FilteredBaseline | internal/monitor/alert_engine.go:736-746 | the resolver's filter computes the same average |
| AlertRecovery.BaselineIsAverage | internal/monitor/alert_engine.go:514-527 | the baseline is the sum of the positive samples over their number, 0 without any |
| AlertRecovery.BaselineBetween | internal/monitor/alert_engine.go:736-746 | so it lies between any bounds of the positive samples |
| AlertRecovery.DefaultMultiplier | internal/monitor/alert_engine.go:497-513 | without a positive multiplier a latency rule means 1.5, whatever its operator |
| AlertRecovery.EvalP95 | internal/monitor/alert_engine.go:497-564 | fires exactly the unsuppressed channels above baseline times multiplier, 1.5 by default |
| AlertRecovery.EvalUserErrors | internal/monitor/alert_engine.go:569-651 | fires exactly the tier's users with an error and at least the truncated threshold of them |
| AlertRecovery.ErrorsSnoc | internal/monitor/alert_engine.go:569-651 | only an error of the user within the last 300 seconds adds to the count |
| AlertRecovery.CheckP95Resolved | internal/monitor/alert_engine.go:726-761 | recovered exactly at or below baseline times 1.5, or without a baseline or row |
| AlertRecovery.GoneIsResolved | internal/monitor/alert_engine.go:695-761 | a channel without a health row has recovered in all three respects |
| AlertRecovery.RateKeptIff | internal/monitor/alert_engine.go:695-709 | error-rate alerts survive their own tick exactly for the safe operators and thresholds |
| AlertRecovery.BalanceKeptIff | internal/monitor/alert_engine.go:711-724 | the same for balance alerts |
| AlertRecovery.P95KeptIff | internal/monitor/alert_engine.go:726-761 | the same for latency alerts: no positive multiplier, or at least 1.5 |
| AlertRecovery.UserKeptIff | internal/monitor/alert_engine.go:763-774 | the same for user alerts: threshold at least 3, whatever the operator |
| AlertResolver.AlertTable.ResolveFired | internal/monitor/alert_engine.go:662-676 | resolves exactly the listed firing alerts whose check passes |
| AlertResolver.SameTickKept | internal/monitor/alert_engine.go:662-774 | a safe rule whose name selects the matching check creates no alert that the same tick clears |
| AlertResolver.NeverFlapsIff | internal/monitor/alert_engine.go:679-693 | for such rules the safe thresholds are exactly those that never do |
| AlertResolver.SelectsIff | internal/monitor/alert_engine.go:680-687 | which names lead each kind of rule to its check: the first match wins, user rules need no name |
| AlertResolver.UnknownRecoversIff | internal/monitor/alert_engine.go:689-692 | an alert that no check knows recovers exactly once it is over an hour old |
| AlertResolver.MalformedIsZero | internal/monitor/alert_engine.go:700-705 | a channel alert with a malformed subject is checked against channel 0 |
| AlertResolver.MalformedUserRecovers | internal/monitor/alert_engine.go:763-774 | a user alert with a malformed subject finds no errors and recovers |
| Calendar.January | internal/billing/statement_query.go:82-94 | every January starts on the day that the Gregorian leap-year count gives |
| Calendar.MonthStart | internal/billing/statement_query.go:82-94 | the first second of every month in closed form |
| Calendar.FormatReads | internal/billing/statement_query.go:246-247 | a formatted month is its year in four digits, a hyphen and its number from 01 to 12 |
| Calendar.DateReads | internal/billing/statement_query.go:249-250 | a formatted date names the day that contains the second |
| Calendar.LabelOfRange | internal/billing/statement_query.go:249-250 | any other range is labelled by its two dates |
| Calendar.PeriodsTile | internal/billing/statement_query.go:82-94 | a period ends where the next one begins |
| Calendar.LabelOfBounds | internal/billing/statement_query.go:237-251 | the label of a period's bounds is the period |
| Calendar.LabelIsPeriodIff | internal/billing/statement_query.go:237-251 | a label parses as a period exactly for the bounds of a period, and then it is that period |
| Calendar.LastMonthIsPrevious | internal/billing/upstream_summary_tick.go:42-50 | last month's bounds are the previous period's with the end one second earlier |
| Calendar.LabelMeans | internal/billing/upstream_summary_tick.go:58-74 | exactly this month and the one before have a cache label |
| Calendar.CachedStartIff | internal/billing/upstream_cache.go:199-226 | a cached row starts where the period starts exactly when it was picked in the month in which it is read |
| Decimals.Itoa | internal/audit/logger.go:98-118 | prints every value above the smallest right, and never leaves its 20-byte buffer |
| Decimals.ItoaRoundTripIff | internal/audit/logger.go:98-118 | reads back exactly for the values above the smallest |
| Printers.WithThousandSep | internal/billing/statement_format.go:286-304 | the left-to-right loop is the grouping from the right |
| Printers.SepGroups | internal/billing/statement_format.go:292-299 | groups of exactly three behind one to three digits |
| Printers.SepRoundTripIff | internal/billing/statement_format.go:286-304 | without commas it reads back exactly when the value is not the smallest |
| Printers.WithThousandSepFloat | internal/billing/statement_format.go:306-324 | rounds to hundredths with carry, then prints sign, groups and two digits |
| Printers.RoundedWithin | internal/billing/statement_format.go:313-318 | after the carry the hundredths are 0 to 99 and the value is within half a cent |
| Printers.MoneyWithinHalfCent | internal/billing/statement_format.go:306-324 | the printed amount reads back within half a cent |
| Printers.InClause | internal/dal/logs_repo.go:394-405 | quotes and escapes every value, in order |
| Printers.ClauseRoundTripIff | internal/dal/logs_repo.go:394-405 | reading the clause as character string literals (section 5.3 of ISO/IEC 9075-2) gives the values back exactly when there are any |

## Left out

- HTTP handlers other than those that acknowledge and resolve alerts, authentication, configuration, migrations, the single-page app and the monitoring clients: plumbing.
- HTML, XLSX and ZIP rendering, file clean-up and the query that generates a statement: an arbitrary outcome instead.
- Floating-point rounding, and rounding to the numeric columns' scale: money and rates are exact reals.
- CleanupUserSem: it has no caller in production, and dropping a semaphore between lookup and use would need one.
- Worker shutdown, process restart and pruning of live tasks: assumed not to happen; task ids are fresh.
- Two evaluators of alerts at once: suppress-then-create is not atomic, one evaluator is assumed.
- The limiter's Redis branches: the local tables are modelled, on which they fall back.
- TryLock and RunUpstreamSummaryTick: no code calls them.
- Order in which Go ranges over maps: an arbitrary choice in every loop over a map.
- sort.Slice: any order that respects the comparison is allowed; the model inserts one entry at a time.
- Names that only decorate a row (vendor, user and model labels of v4, per-channel lines of a live overview vendor).
- A NULL model name in the logs counts as an empty one.
- Latency percentiles and the JSON column of a log: given as fields.
- By-model minute rows and the pruning of minute rows after seven days.
- Parsing of rule conditions and of their duration suffix: a threshold and a duration are given; a condition that carries a suffix fails to parse and fires nothing.
- Alert times: both sides of the created_at comparison are taken in seconds.
- Historical offsets of Shanghai: UTC+8 throughout, for instants from year 0 on.
- Printers.WithThousandSepFloat: amounts whose whole part, also after a carry, leaves 64 bits are excluded, because the conversion is then unspecified.
- UpstreamFreshness: channels and discounts stay as they are between a tick and a read, and failing calculations write nothing.
