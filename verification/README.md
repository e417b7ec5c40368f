# Verified model of the usage cache, the analytics agent and the sync scheduler

The model covers three parts of the dashboard.

**The consolidated usage cache** (`internal/cache`). Raw message logs are folded into a
database below an hour-aligned finality cutoff; reads merge the cache with a live gap at
or after it. The model has the message table, the tool rows, the session rollups, the six
hourly tables and the state row, the planning of a sync, and the write transactions.
It proves what every run of syncs, failures and resets keeps (`consolidation.dfy`,
`cache_store.dfy`), that rollup reads equal scans (`rollup_reads.dfy`), and that overview,
trends, model list, message pages and session pages equal one pass over the raw log
(`overview_reads.dfy`, `daily_reads.dfy`, `hourly_reads.dfy`, `model_reads.dfy`,
`message_pages.dfy`, `session_pages.dfy`). A read is a sequence of statements, and each
statement may see a different committed database: reads take a function from statement
numbers to databases.

**The bounded agent loop and its streamed text** (`internal/analyticsagent`). The think-tag
filter under every chunking (`think_filter.dfy`), the reading of cumulative and incremental
streams (`adaptive_text.dfy`), the retry and reset protocol between loop and browser
(`chat_stream.dfy`), the trimming of requests and the tool protocol
(`provider_context.dfy`), and a lead with its specialists interleaved over one shared
budget (`turn_budget.dfy`, `agent_run.dfy`, `turn_runner.dfy`).

**The sync-job scheduler and the generation-guarded memo** (`cmd/opencode-dashboard`,
`internal/cache/merge_store.go`). Atomic sections under a lock, any number of threads,
inductive invariants (`sync_jobs.dfy`, `cache_runtime.dfy`, `state_memo.dfy`).

`dafny verify dfyconfig.toml` checks everything.

## How to read it

A database is a value: a write transaction works on a copy and commits by assigning it.
Times are integer milliseconds since the epoch, costs are reals, text is a sequence of
Unicode characters whose UTF-8 length is computed. SQL statements are methods over sets of
rows, proved against set-valued specification functions. Where the program is concurrent, a
module has a state machine of atomic steps, and a class whose methods are the sections of
those steps.

What the statements rest on:

- A message id stands for one row for ever, and ids and session ids are not empty (`UsageRows.WellFormedLog`).
- Raw rows below a recorded cutoff never change (`Consolidation.KeepsFinalRows`).
- Reads do not start from a cutoff in the future of their clock, and the clock stands still between
  the split and the statement that resolves the cached window. The code reads it again there
  (`internal/cache/query.go:820-871`), so the cached half of a window of the last hours starts later
  by that much, and that of a window of days by a day when midnight lies between.
- During a read the source is in a steady run: it grows, and incremental syncs of one identity
  commit (`OverviewReads.SteadyRunsAreConsistent`). The cutoff of the split and the one that
  clamps the cached window are two reads of the memo and may be of any age; what the second
  one must satisfy is proved, not assumed (`OverviewReads.WhenAClampLosesNothing`).
- The gap rows of a read are those of the log at the read. A fetch gives them; a memo hit does
  under the condition of `GapMemo.WhenAHitIsExact`.
- The live list of models, or of sessions, and the gap rows are two live reads; they are taken
  from one state of the log.
- No list has more than 2^40 rows (`MessagePages.MAX_PAGE_OFFSET`).
- The digests that tag fingerprints are injective: a rebuild identity is named by its digest.

## What the proofs brought to light

Each names the condition under which the code does what it says, and most a concrete input
that shows it otherwise.

- **The recorded cutoff can move back.** An incremental sync that finds the pricing identity
  changed becomes a rebuild and loses the maximum with the recorded cutoff
  (`Consolidation.WhenTheCutoffRegresses`, `Consolidation.RepricingMovesTheCutoffBack`).
- **The watermark memo can go back.** Between a commit and its invalidation, a reader that took
  the old row may seed it over the new one. A request whose split takes the new cutoff and whose
  clamp takes the old one then loses the rows between the two, from every kind of list
  (`StateMemo.WhenALaterReadGoesBack`, `StateMemo.AReadCanGoBack`,
  `OverviewReads.WhenAClampLosesNothing`, `OverviewReads.AnEarlierClampLosesARow`).
- **An overflowed page can read as the first one, or crash.** The comment on `pageOffset` says it
  comes back empty instead of panicking. It comes back empty only under a time sort, and only when
  the wrapped product is negative or large. Newest first an end that wraps is sliced up to, and
  under every other sort room is reserved for all rows up to the end, which crashes for the
  stand-in offset too. Web requests cannot pass such pages; a direct caller of the cache could
  (`MessagePages.WhenTheServedPageIsTheAskedOne`, `MessagePages.WebPagesAreExact`,
  `MessagePages.TheSentinelCrashesOtherSorts`, `MessagePages.AnOverflowedPageCanReadAsTheFirst`,
  `MessagePages.APageCanCrash`).
- **A text filter can show a session with part of its activity**, because the halves filter
  different texts (`SessionPages.WhenASessionIsShownInFull`).
- **Session pages can repeat a session or misplace one.** The statement ranks without the id
  tie-break of the list, and merging can lower a creation time
  (`SessionPages.WhenASessionPageIsExact`, `SessionPages.TiesCanHideASession`,
  `SessionPages.ALoweredCreationCanMisplaceASession`).
- **A hit of the gap memo can be stale and short.** It misses the rows appended since the fetch,
  and keeps no upper bound, so it also misses rows past the end of the fetch
  (`GapMemo.WhenAHitIsExact`, `GapMemo.AHitCanMissAnAppendedRow`, `GapMemo.AHitCanMissANewRow`).
- **An all-time hourly trend can lose rows.** When nothing is cached yet it starts at today's
  first hour, although in the first six hours of a day the gap reaches into yesterday
  (`HourlyReads.WhenAllTimeShowsEveryRow`, `HourlyReads.ARowOfYesterdayIsNotShown`,
  `HourlyReads.WhenTheGapReachesIntoYesterday`).
- **An automatic sync can drop a source that was just queued**, because it lists the available
  sources before it takes the lock (`SyncJobs.WhenAQueuedSourceIsTargeted`,
  `SyncJobs.ATickCanDropAQueuedSource`).
- **A late preference handler can drop a repricing notice**: handlers run outside the registry's
  lock and act on what they read before (`SyncJobs.WhenANoticeCanBeLost`,
  `SyncJobs.AStaleHandlerCanDropANotice`).
- **A chunk that repeats all the text before it is lost** when an incremental stream is read
  (`AdaptiveText.WhenChunksAreRead`, `AdaptiveText.ARepeatedChunkIsLost`).
- **A timeout or a tool-protocol violation leaves the partial text on screen**: these errors end
  the turn without a reset (`ChatStream.WhenTextStays`, `ChatStream.ATimeoutLeavesText`,
  `ChatStream.AToolCallInTheLastRoundLeavesText`). This is a fact about the event protocol and
  not plainly a defect: the client keeps the partial text of a failed turn on purpose
  (`web/src/components/assistant/analytics-assistant.tsx:1056-1070`).

## Model

| member | source | states |
|---|---|---|
| Fingerprints.ParserInvertsTagger | internal/cache/fingerprint.go:112-141 | The fingerprint parser accepts exactly the tagged fingerprints and returns the pricing digest the tagger put in, in both directions. |
| Fingerprints.OnlyTheIdentityForcesARebuild | internal/cache/fingerprint.go:143-156 | Between two tagged fingerprints the pricing identity counts as changed exactly when the pricing digests differ; a change of the data digest alone never does. |
| Fingerprints.RebuildIdentityIsInjective | internal/cache/fingerprint.go:87-92 | Two identity texts are equal only when both the pricing snapshot and the data layout are, provided neither holds the NUL that joins them. |
| UsageRows.DayOfHour | internal/cache/store.go:1355-1363 | The UTC day of a row is the day of its hour bucket, and the row lies in its bucket. |
| UsageRows.AlignedBoundary | internal/cache/store.go:1355-1363 | An hour-aligned boundary separates rows exactly as it separates their hour buckets. |
| UsageRows.SumDisjoint | internal/cache/overview_rollup.go:84-187 | Numeric totals of disjoint row sets add up, for every choice of columns. |
| Rollups.Aggregate | internal/cache/store.go:1445-1541 | Aggregating rows one by one into an hourly table gives that table rebuilt over the rows. |
| Rollups.RebuildGrows | internal/cache/store.go:1309-1353 | What one more row does to a rebuilt table: its group alone changes, by exactly its own numbers. |
| Rollups.SuffixRefreshIsRebuild | internal/cache/store.go:1368-1428 | For each of the six tables: deleting the buckets from an aligned boundary on and aggregating the suffix again gives the rebuild of the whole table. |
| CacheDatabase.InsertMessages | internal/cache/store.go:1049-1130 | Upserting rows by message id gives the union with the table when an id stands for one row for ever. |
| CacheDatabase.InsertTools | internal/cache/store.go:1132-1150 | Tool rows without a name are skipped; the others are in the table afterwards. |
| CacheDatabase.DeleteToolsForMessages | internal/cache/store.go:1152-1170 | Removes the tool rows of the payload messages and no others. |
| CacheDatabase.AggregateSession | internal/cache/store.go:1266-1307 | The earliest and the latest time, the count and the cost of a session over its message rows. |
| CacheDatabase.RefreshSessions | internal/cache/store.go:1221-1307 | Re-aggregating the changed sessions and dropping those without messages gives the session table rebuilt over all messages. |
| Consolidation.PlannedCutoffs | internal/cache/store.go:468-500 | Every planned cutoff is hour-aligned; incremental plans never plan below an aligned recorded cutoff, and a watermark advance keeps it. |
| Consolidation.IncrementalKeepsTheIdentity | internal/cache/store.go:456-465 | Where no repricing is planned over visible rows, the stored fingerprint carries the identity the source has now. |
| Consolidation.FillIsRebuild | internal/cache/store.go:853-910 | Deleting the suffix and inserting the collected window gives the whole cache that a rebuild from scratch at the same cutoff gives. |
| Consolidation.SyncKeepsInvariant | internal/cache/store.go:402-553 | A sync of any kind (incremental, rebuild, read-triggered, failed, unavailable, unchanged) keeps the visible rows equal to the raw rows below the cutoff. |
| Consolidation.StepKeepsInvariant | internal/cache/schema.go:335-345 | The same for every step: the source moving, syncs, a data-version change, reopening. |
| Consolidation.EveryRunShowsRawRows | internal/cache/store.go:82-84 | In every state any mix of steps reaches from an empty cache, the rows older than the recorded cutoff are the raw rows older than it, priced under the identity in the stored fingerprint. |
| Consolidation.CollectionIsRebuild | internal/cache/store.go:501-553 | After every successful collection the cache, state included, is what one rebuild of an empty cache at that cutoff gives. |
| Consolidation.WhenTheCutoffRegresses | internal/cache/store.go:466-480 | The recorded cutoff moves back exactly when a committed rebuild, asked for or forced by a changed identity, requests an earlier hour. |
| Consolidation.RepricingMovesTheCutoffBack | internal/cache/store.go:456-480 | A concrete incremental sync that must reprice and moves the recorded cutoff from the second hour to the first. |
| Consolidation.SteadyRunsShowTheSameFinalRows | internal/cache/store.go:853-910 | Along a run in which the source grows and incremental syncs of one identity commit, every database shows the same rows below a cutoff once recorded: those the source still shows at the end. |
| CacheStore.CollectConsolidation | internal/cache/store.go:1620-1718 | A collection pass keeps exactly the rows of [since, cutoff), their sessions and their tool rows, and counts every row it leaves out on the side it lies. |
| CacheStore.SessionsFromMessages | internal/cache/store.go:1863-1901 | The payload has a session row for exactly the sessions of its messages. |
| CacheStore.PrepareChangedSessions | internal/cache/store.go:1178-1215 | The changed sessions are those with cached rows in the suffix and those of the payload. |
| CacheStore.ChangedSessionsSuffice | internal/cache/store.go:1178-1264 | Every session that is not marked changed keeps its aggregates, so refreshing the marked ones is enough. |
| CacheStore.FilledTools | internal/cache/store.go:870-900 | The two tool deletions and the inserts of a fill leave exactly the tool rows of the resulting message table. |
| CacheStore.RefreshTables | internal/cache/store.go:1368-1428 | Refreshing tables from a boundary on makes them the rebuild over the new message table. |
| CacheStore.Store.ReplaceSource | internal/cache/store.go:807-847 | A rebuild commits the payload rows, every derived table exact, and the given state. |
| CacheStore.Store.FillSource | internal/cache/store.go:853-910 | A fill commits the kept prefix and the payload rows, every derived table exact, and the given state. |
| CacheStore.Store.SyncSource | internal/cache/store.go:402-553 | One sync changes the cache exactly as the planned step says, keeps every derived table equal to a rebuild over the messages, and keeps the run invariant. |
| CacheStore.Store.ResetOutdatedDataVersions | internal/cache/schema.go:335-345 | Opening under another data version clears fingerprint, cutoff and watermarks, keeps the rows, and keeps the derived tables exact. |
| Windows.SplitIsAPartition | internal/cache/overview_rollup.go:29-55 | The split of any window into full hours and at most two edges holds each instant of the window in exactly one part and no other instant. |
| Windows.RowsByPart | internal/cache/overview_rollup.go:57-82 | The rows of a window are the disjoint union of the rows of its parts. |
| Windows.HalvesMakeTheWindow | internal/cache/merge.go:47-127 | Cached half and live half never overlap, together are the requested window, and lie on their sides of the cutoff. |
| Windows.LiveHalfAsksForTheGap | internal/cache/merge.go:36-42 | The query sent to the live source resolves to exactly the gap. |
| CostStatuses.CostCounts.Result | internal/cache/cost.go:39-56 | The label of a total: no label without statuses, one status names it, several mix. |
| CostStatuses.CountsGrow | internal/cache/cost.go:20-37 | Adding a group of requests of one status gives the counts of the enlarged row set. |
| CostStatuses.CountsOfUnion | internal/cache/cost.go:20-37 | Counts of disjoint row sets add up, status sets unite. |
| CostStatuses.MergedCostIsExact | internal/cache/merge.go:313-339 | Merging the summaries of two disjoint halves gives the summary of one pass over both. |
| RollupReads.FiledRowsAreTheSpan | internal/cache/model_filter.go:50-62 | The table entries of whole hours that pass the rollup filter stand for exactly the messages of those hours that pass the message filter. |
| RollupReads.ReadTotals | internal/cache/overview_rollup.go:84-187 | Rollup hours plus scanned edges give the direct sum over the message rows of the window and selection, each part read from a database of its own. |
| RollupReads.ReadSessions | internal/cache/overview_rollup.go:189-209 | The distinct sessions read from the session-set table and the edges are those of the message rows. |
| RollupReads.ReadDays | internal/cache/overview_rollup.go:211-231 | The distinct active days read from the rollup and the edges are those of the message rows. |
| RollupReads.ReadCosts | internal/cache/overview_rollup.go:233-276 | The cost-status counts read from the cost table and the edges are those of the message rows. |
| RollupReads.CountedIsMatching | internal/cache/model_filter.go:31-78 | What each table counts under a filter is what the filter means on messages; only requests without a cost status are missing from the cost table. |
| OverviewReads.SteadyRunsAreConsistent | internal/cache/source.go:165-173 | Every database committed while a read runs agrees with the log below the cutoff the read started from, which is all a read needs, and records no earlier cutoff. |
| OverviewReads.PeriodWindow | internal/cache/query.go:786-856 | The window the cache resolves from the rows it observes, clamped at the cutoff it reads for itself, whatever that is. |
| OverviewReads.CachedWindow | internal/cache/query.go:786-815 | Whatever database the resolving statement sees and whatever cutoff the clamp reads, the resolved window holds the rows of the split's cached half that lie before the clamp, in every later database. |
| OverviewReads.WhenAClampLosesNothing | internal/cache/query.go:786-800 | The cache serves all requested rows of its half exactly when the clamp is absent, no older than the split's cutoff, or no requested row of that half lies at or after it. |
| OverviewReads.AClampNoOlderLosesNothing | internal/cache/query.go:786-800 | In a steady run, a clamp that read a row of the split's commit or a later one loses nothing. |
| OverviewReads.AnEarlierClampLosesARow | internal/cache/query.go:786-800 | A concrete request whose clamp is the hour before the split's cutoff: a row between the two is requested, and neither served by the cache nor in the gap. |
| OverviewReads.StoreFigures | internal/cache/overview_rollup.go:57-82 | The cached half of an overview is one pass over the cached rows of the window and filter. |
| OverviewReads.FilterGap | internal/cache/merge.go:182-198 | The gap rows kept are those of the window that pass the filter, each once. |
| OverviewReads.AggregateGap | internal/cache/merge.go:358-450 | Adding gap rows one by one gives totals, sessions, days and cost counts of the row set. |
| OverviewReads.DistinctSessionOverlap | internal/cache/merge_store.go:122-138 | Counting gap sessions in the cached window chunk by chunk gives the size of the intersection. |
| OverviewReads.HasActivity | internal/cache/merge_store.go:142-156 | The probe is true exactly when the window has a matching row. |
| OverviewReads.SharedDays | internal/cache/merge.go:482-498 | Only the cutoff's own UTC day can be active on both sides of the cutoff, and it is on the cached side exactly when a cached row is that late. |
| OverviewReads.MergeOverview | internal/cache/merge.go:456-512 | The merged figures are one pass over the cached rows and the gap when the cache served its whole half: messages, requests, cost, tokens, distinct sessions, active days, cost status and counts; they always count the rows served and live. |
| OverviewReads.CachedOverview | internal/cache/source.go:251-272 | An overview over any window and filter equals one pass over the raw log exactly when the clamp loses no requested row, although consolidations may commit before every statement and before the gap fetch; the errors are exactly the invalid query and the filter no cache can serve. |
| GapMemo.GapMemo.GapMessages | internal/cache/source.go:208-249 | A hit answers from the rows fetched earlier, a miss from the log, and a fetch overtaken by an invalidation is not kept. |
| GapMemo.GapMemo.Invalidate | internal/cache/source.go:603-618 | Drops the memo and moves to a new generation. |
| GapMemo.AHitCanMissANewRow | internal/cache/source.go:208-223 | A row newer than the earlier fetch is missing from a hit that asks for it. |
| GapMemo.AHitCanMissAnAppendedRow | internal/cache/source.go:208-223 | A row appended after the fetch is missing from every hit, however far into the future the fetch reached. |
| GapMemo.WhenAHitIsExact | internal/cache/source.go:208-223 | A hit gives the rows of the log as it is at the hit exactly when no requested row before the fetched end came or went since the fetch, and none lies past that end inside the request. |
| GapMemo.WhenTheLogIsUnchanged | internal/cache/source.go:208-223 | While the log is the one fetched, a hit is exact exactly when no requested row lies past the fetched end; asking for no more than was fetched is then enough. |
| DailyReads.StoreDaily | internal/cache/daily_rollup.go:33-317 | The cached days of a window, idle ones included, each with the figures of one pass over its rows. |
| DailyReads.AggregateGapBy | internal/cache/merge.go:435-450 | Grouping the gap by a key of the time gives each key the aggregate of its rows. |
| DailyReads.MergeDays | internal/cache/merge.go:595-637 | Each merged day has the figures of one pass over both halves when the cache served its whole half, and always counts the rows served and live; a session on both sides of the cutoff counts once. |
| DailyReads.ListDays | internal/cache/merge.go:639-658 | The days listed start with the given one, run on without a hole to the end of the window, and are zero when idle. |
| DailyReads.ListedDaysAreATrend | internal/cache/merge.go:639-658 | Exact days listed from before the first row are consecutive, hold every row, and each has the figures of its rows. |
| DailyReads.ACountIsMissing | internal/cache/merge.go:639-658 | Days that count only some of the rows are a trend of all rows only when there are no others. |
| DailyReads.CachedDaily | internal/cache/source.go:274-297 | The daily trend of a request equals direct bucketing of the requested rows of the raw log exactly when the clamp loses none of them, under concurrent consolidations. |
| DailyReads.DaysSumToTheOverview | internal/cache/merge.go:514-666 | The day buckets of an unfiltered trend add up to the overview of the same window. |
| HourlyReads.StoreHourly | internal/cache/query.go:91-116 | The cached hours of a window, idle ones included, each with the figures of one pass over its rows; an empty window is read as its whole first hour. |
| HourlyReads.MergeHours | internal/cache/merge.go:518-593 | Taking the hours before an aligned cutoff from the cache and the others from the gap gives direct bucketing of both halves. |
| HourlyReads.CachedHourly | internal/cache/source.go:274-297 | The hourly trend of a request equals direct bucketing of the raw log from the first hour shown exactly when the clamp leaves out none of those rows, under concurrent consolidations; a clamp at or before the first hour still reads that hour to its end. From the cache alone it does exactly when that end leaves out no requested row and brings in no other. A window with a start is shown from its hour; all time from the first cached day, or from today when nothing is cached. |
| HourlyReads.WhenAllTimeShowsEveryRow | internal/cache/query.go:858-871 | An all-time trend shows every requested row exactly when no requested row past the cutoff is earlier than the day it starts with; always when a row below the cutoff was observed, whatever the filter. |
| HourlyReads.ARowOfYesterdayIsNotShown | internal/cache/query.go:858-871 | An empty cache in the first hours of a day, one row yesterday after the cutoff: the row is requested and fetched, and the trend starts after it. |
| HourlyReads.WhenTheGapReachesIntoYesterday | internal/cache/store.go:609-614 | The safe cutoff lies before today exactly in the first six hours of a UTC day. |
| ModelReads.ReadModels | internal/cache/model_rollup.go:51-113 | The models found in the hourly table and the edges are those of the requests in the window. |
| ModelReads.StoreModels | internal/cache/model_rollup.go:17-238 | The cached model list (totals, distinct sessions, cost status per model and provider) is the group-by of the message rows. |
| ModelReads.GapSessionsByModel | internal/cache/merge.go:691-703 | The gap sessions of each model. |
| ModelReads.MergedModel | internal/cache/merge.go:710-742 | Adding a live entry to a cached one counts the requests of both, and gives the entry of the rows of both when the cache served all of the model's; shared sessions count once. |
| ModelReads.MergeModels | internal/cache/merge.go:688-759 | The merged list has the models of both halves, each entry counting the requests served and live and exact when the cache served all of its model's. |
| ModelReads.MergedListIs | internal/cache/merge.go:688-759 | The merged list is the group-by of both halves exactly when the cache served every request of its half that has a model. |
| ModelReads.CachedModels | internal/cache/source.go:351-380 | The model list of a request is the group-by of one pass over the raw log, tokens included, exactly when the clamp leaves out no request with a model, under concurrent consolidations. |
| Ordering.ListingIsUnique | internal/cache/merge_lists.go:46-85 | A set of rows has one listing under a strict total order. |
| Ordering.SortSlice | internal/cache/merge_lists.go:106-108 | Sorting distinct rows gives that listing. |
| Ordering.FirstRowsAgree | internal/cache/merge_lists.go:94-99 | The first n rows of the candidates are the first n of everything exactly when n candidates precede every row that is not one. |
| Ordering.WhenThePageIsExact | internal/cache/merge_lists.go:245-250 | A page of the candidates is that page of everything exactly when the page lies past the end or every row left out comes after it. |
| Ordering.PagesCoverTheList | internal/cache/merge_lists.go:94-99 | The pages taken together list every row once and in order. |
| MessagePages.PageOffset | internal/cache/merge_lists.go:15-24 | The offset of a page in 64-bit arithmetic is never negative. |
| MessagePages.WhenThePageOffsetIsExact | internal/cache/merge_lists.go:15-24 | The offset of a page, and the one given to a statement on the cache alone, is the page's own exactly when the product fits 64 bits. |
| MessagePages.WhenTheListIsThePage | internal/cache/merge_lists.go:11-28 | Reading from an offset gives the page exactly when the product fits 64 bits or the offset it wrapped to is past the end. |
| MessagePages.WhenTheServedPageIsTheAskedOne | internal/cache/merge_lists.go:110-170 | A request serves the page asked for exactly when its offset is the page's own or past the end anyway, and a merged page reaches to its end: newest first an end that fits 64 bits, under a sort other than by time one for which room can be reserved, oldest first any. |
| MessagePages.TheSentinelCrashesOtherSorts | internal/cache/merge_lists.go:11-28 | A page whose product wraps negative reads as past the end under the time sorts and crashes under every other, against the documented claim that it comes back empty instead. |
| MessagePages.APageOfWrappedProductCrashes | internal/cache/merge_store.go:189-209 | One such page, of four rows sorted by cost. |
| MessagePages.WhenALossIsNotSeen | internal/cache/merge_lists.go:94-99 | A page of the rows that a clamp leaves is that page of all rows exactly when the listing of all ends before it or every row left out comes after as many others as reach to its end. |
| MessagePages.WebPagesAreExact | internal/web/handlers.go:436-463 | Every page and limit a web request can pass, at most 100000 and 100, serves the page asked for: only a caller that passes larger pages can overflow. |
| MessagePages.APageCanCrash | internal/cache/merge_lists.go:115-121 | A page whose own offset fits 64 bits and whose end does not: newest first the merged read slices up to a negative end, and under a sort other than by time it crashes as well. |
| MessagePages.AnOverflowedPageCanReadAsTheFirst | internal/cache/merge_lists.go:11-15 | Pages whose product wraps to zero, or to a negative number given to a statement, read as the first page, against the documented claim. |
| MessagePages.MessagesAreOrdered | internal/cache/merge_lists.go:46-85 | For every field and direction the comparison is a strict total order on rows with unique ids. |
| MessagePages.SelectMessages | internal/cache/merge_store.go:189-201 | The statement's rows are the slice of the sorted cached rows. |
| MessagePages.MessagesSlice | internal/cache/merge_store.go:175-215 | Room is reserved for as many rows as the limit says, so a limit past what can be allocated crashes the read, and exactly such a one; otherwise the rows are those of the statement. |
| MessagePages.MergeMessages | internal/cache/merge_lists.go:100-188 | The merged page is the slice of the sorted union of cache and gap from the page's offset on, or a crash where it does not reach that far, for every sort field, direction and page; the total is that of its own statement. |
| MessagePages.NewestFirst | internal/cache/merge_lists.go:115-131 | Newest first the list is the gap, then the cache, in all three page positions; a wrapped end crashes. |
| MessagePages.OldestFirst | internal/cache/merge_lists.go:132-155 | Oldest first the list is the cache, then the gap, in all three page positions. |
| MessagePages.ByOtherKeys | internal/cache/merge_lists.go:156-170 | Under any other sort the first offset+limit cached rows and the gap are candidates enough; when no room can be reserved for so many rows the read crashes. |
| MessagePages.CachedMessages | internal/cache/source.go:514-536 | A message list request reads its page from one sorted listing of the rows its clamp leaves, for every page; when no clamp loses a requested row these are the rows of the raw log, and the total is exact exactly when its own clamp loses none. Oldest first the page goes by the count that the total's clamp leaves. Under concurrent consolidations, for the live-only, cached-only and merged case. |
| MessagePages.WhenTheCountIsNotTooLarge | internal/cache/merge_lists.go:132-155 | Oldest first, a count no larger than the cached rows cuts them to their first: the pages are those of one list with the live rows after it. |
| MessagePages.ATooLargeCountRepeatsRows | internal/cache/merge_lists.go:132-155 | A count one larger than the cached rows, pages of two: a live row is on two pages. |
| SessionPages.SessionsAreOrdered | internal/cache/merge_lists.go:217-243 | For each of the four modes the comparison is a strict total order on sessions with unique ids. |
| SessionPages.Ranked | internal/cache/sessions_query.go:64-93 | The ranked rows are one of the answers the statement's ORDER BY and LIMIT allow; ties come in any order. |
| SessionPages.WindowRows | internal/cache/sessions_query.go:37-57 | The session rows of a window: one per session with messages in it that passes the filters, with the window's count and cost. |
| SessionPages.SessionWindowRows | internal/cache/merge_store.go:233-307 | The exact count, a ranking of the asked length, and the rows of the asked ids whatever their rank; each row has the last update its statement saw, and everything else agrees between statements. |
| SessionPages.RankingIgnoresUpdates | internal/cache/sessions_query.go:64-93 | A ranking of the rows one statement saw ranks the rows any other statement saw. |
| SessionPages.GapSessionRollups | internal/cache/merge_lists.go:199-215 | Count and cost per session of the gap messages, for the sessions kept. |
| SessionPages.CollectCandidates | internal/cache/merge_lists.go:267-322 | The candidates are the ranked sessions and all gap sessions, each merged from its cached row and its gap activity. |
| SessionPages.MergeSessions | internal/cache/merge_lists.go:251-348 | The page is the page of the sorted candidates and the total is the size of the full merged list, for every page, although statements may see different last updates of a session. |
| SessionPages.WhenASessionPageIsExact | internal/cache/merge_lists.go:245-250 | The page is that page of the full merged list exactly when the list ends before it or every session not fetched is preceded, in merged order, by as many fetched ones as reach to the end of the page. |
| SessionPages.PagesAreExact | internal/cache/merge_lists.go:245-250 | Every page is exact when gap costs are not negative, the ranking is cut in the order of the list, and no creation time is lowered; the last is not needed oldest first. |
| SessionPages.WithoutTiesTheOrderIsShared | internal/cache/sessions_query.go:64-75 | Where no two cached sessions tie on the statement's keys, its ranking is cut in the order of the list. |
| SessionPages.TiesCanHideASession | internal/cache/sessions_query.go:64-75 | Two sessions created at one instant, pages of one row: both pages can show the same session and the other is on none. |
| SessionPages.ALoweredCreationCanMisplaceASession | internal/cache/merge_lists.go:288-293 | A gap session older than its cached row takes the first page from the session that belongs there. |
| SessionPages.TheListIsTheLogs | internal/cache/merge_lists.go:251-348 | The full merged list holds each session that the cache shows of the cached rows or the source of the live ones, once, with the count and the cost that the two filters show of it. |
| SessionPages.WhenASessionIsShownInFull | internal/cache/sessions_query.go:34-36 | A session is listed with the count and the cost of one pass over all its rows exactly when neither half filters out rows of it. |
| SessionPages.EntriesAgree | internal/cache/sessions_query.go:37-57 | Two databases that agree below the cutoff agree on the sessions of a window before it, creation times included, but for last updates. |
| SessionPages.CachedSessions | internal/cache/source.go:460-503 | A session list request with both halves under concurrent consolidations, with the two text filters of its halves: total, ids, counts and costs are those of one pass over the rows the clamp leaves, which are the requested rows of the log exactly when it loses none, and the page is that page of the list exactly when enough sessions were fetched: always when the ranking shares the order, nothing is lowered and no cost is negative. |
| SessionPages.StoredSessions | internal/cache/query.go:479-530 | A session list request served by the cache alone: total, ids, counts and costs are those of one pass over the rows the clamp leaves, and the page is cut from an order the statement allows, that of the list when no sessions tie. |
| SessionPages.RankingIsTheList | internal/cache/sessions_query.go:64-75 | Without ties on the statement's keys its ranking is the start of the list. |
| StateMemo.MemoStore.InvalidateStateMemo | internal/cache/merge_store.go:24-35 | Drops the source's row and moves to a new generation; other sources are untouched. |
| StateMemo.MemoStore.LookUp | internal/cache/merge_store.go:37-44 | A read finds the memoised row, or the generation under which it may seed: the first step of a reader. |
| StateMemo.MemoStore.Seed | internal/cache/merge_store.go:52-61 | Seeds the row only if the generation is the one the read began with. |
| StateMemo.StepKeepsSound | internal/cache/merge_store.go:24-63 | Every step of any reader or writer keeps the memo at least as new as the last invalidated commit. |
| StateMemo.ReadsAreNeverOlderThanAnInvalidation | internal/cache/merge_store.go:37-63 | With any number of readers and writers, neither the memo nor the row a read returns is older than the last commit whose invalidation had finished. |
| StateMemo.AnOldRowIsNotSeeded | internal/cache/merge_store.go:52-61 | A row that a finished invalidation has overtaken does not reach the memo. |
| StateMemo.WhenALaterReadGoesBack | internal/cache/merge_store.go:37-63 | After a read has taken a row, a later read can take an older one exactly when the memo holds an older row or a reader of the current generation holds one it has yet to seed. |
| StateMemo.GoingBackNeedsAPendingWriter | internal/cache/store.go:167-175 | While a later read can take an older row, the writer of the row taken has committed and not yet invalidated the memo. |
| StateMemo.AReadCanGoBack | internal/cache/merge_store.go:37-63 | A concrete run of one writer and two readers in which a read takes the new row and a later one the old. |
| SyncJobs.StepKeepsOneJob | cmd/opencode-dashboard/main.go:1816-1877 | In every interleaving one thread at most runs a job, and one does exactly while the runtime says so. |
| SyncJobs.StepKeepsPricingAttended | cmd/opencode-dashboard/main.go:1499-1530 | Queued repricing always has a running job or a finished job's tail that will look at it. |
| SyncJobs.StepKeepsInitialAttended | cmd/opencode-dashboard/main.go:1271-1304 | Queued initial syncs always have a running job or a thread that will start them. |
| SyncJobs.QuietQueuesAreEmpty | cmd/opencode-dashboard/main.go:1714-1717 | At most one job runs, and once no job, tail, starter or preference handler is active and nobody shut down, both queues are empty. |
| SyncJobs.AcceptedNoticesAreServed | cmd/opencode-dashboard/main.go:1469-1495 | Every accepted pricing notice of a source that stays enabled is followed by a job that targets it and started no earlier, unless the notice had to wait for a job while a preference handler still took the source for disabled. |
| SyncJobs.WhenANoticeCanBeLost | cmd/opencode-dashboard/main.go:1469-1495 | An accepted notice of a source that stays enabled can leave the queue without a job that targets the source exactly when a job runs as it is accepted and a handler that read the source as disabled is still before the lock. |
| SyncJobs.LeavingIsTargeted | cmd/opencode-dashboard/main.go:1499-1530 | A notice leaves the queue only for a job that targets its source or a handler that read the source as disabled. |
| SyncJobs.WhenAQueuedSourceIsTargeted | cmd/opencode-dashboard/main.go:1178-1210 | An enabled source leaves the initial queue when a job starts; the job targets it exactly when it is not that of a tick that had not listed it. |
| SyncJobs.ATickCanDropAQueuedSource | cmd/opencode-dashboard/main.go:1187-1205 | In a reachable state, a tick that listed the sources before a source was enabled and queued clears the queue and syncs without it. |
| SyncJobs.AStaleHandlerCanDropANotice | cmd/opencode-dashboard/source_settings.go:109-140 | In a reachable state, a preference handler that read a source as disabled withdraws the work accepted after the source was enabled again. |
| CacheRuntimes.CacheRuntime.RememberSource | cmd/opencode-dashboard/source_settings.go:91-107 | A source is remembered once, at the end of the order. |
| CacheRuntimes.CacheRuntime.StartJobLocked | cmd/opencode-dashboard/main.go:1816-1845 | Marks a job as running with its targets and changes nothing else. |
| CacheRuntimes.CacheRuntime.NotifyPricingChange | cmd/opencode-dashboard/main.go:1469-1495 | Does to the shared state what the notice section of the scheduler does, with its three answers. |
| CacheRuntimes.CacheRuntime.StartPendingPricingSync | cmd/opencode-dashboard/main.go:1499-1530 | Draining the queue in registration order is the pricing section; the targets are distinct. |
| CacheRuntimes.CacheRuntime.StartPendingInitialSync | cmd/opencode-dashboard/main.go:1271-1304 | Filtering and clearing the queue is the initial section. |
| CacheRuntimes.CacheRuntime.RunAutoSyncTick | cmd/opencode-dashboard/main.go:1197-1206 | The tick's locked part is the tick section. |
| CacheRuntimes.CacheRuntime.Sync | cmd/opencode-dashboard/main.go:1532-1573 | Choosing the targets of a manual sync is the sync section. |
| CacheRuntimes.CacheRuntime.QueueInitialSync | cmd/opencode-dashboard/main.go:1251-1266 | A source is queued once, if it is enabled. |
| CacheRuntimes.CacheRuntime.PreferenceChanged | cmd/opencode-dashboard/source_settings.go:109-140 | Filtering the queues of a disabled source is the preference section. |
| CacheRuntimes.CacheRuntime.FinishJob | cmd/opencode-dashboard/main.go:1858-1877 | The job no longer runs and the queues stay. |
| ThinkFilter.StripLeadingThinkBlocks | internal/analyticsagent/content.go:12-25 | The loop computes the recursive filter of a complete text. |
| ThinkFilter.WhenStripSucceeds | internal/analyticsagent/content.go:9-25 | Stripping succeeds with v exactly when the text is complete reasoning envelopes and white space, then v, then white space, with v trimmed and free of tags. |
| ThinkFilter.StreamableVisibleContent | internal/analyticsagent/content.go:82-114 | The loops compute the recursive filter of a text that is still arriving. |
| ThinkFilter.SafeEndGrows | internal/analyticsagent/content.go:102-113 | One more character never makes text unsafe that was safe to show. |
| ThinkFilter.StreamableIsMonotone | internal/analyticsagent/content.go:82-114 | Appending text only extends what may be shown, and an error stays an error. |
| ThinkFilter.ShownTextStaysClear | internal/analyticsagent/content.go:102-105 | No shown character is ever part of a tag: a tag that later text completes starts past the shown text. |
| ThinkFilter.StripExtendsShown | internal/analyticsagent/content.go:68-80 | When the complete text is accepted, what was shown of it is the start of the answer. |
| ThinkFilter.VisibleContentStream.PushDelta | internal/analyticsagent/content.go:45-66 | A push is the stream step, with its limits and errors and the text it keeps on each. |
| ThinkFilter.VisibleContentStream.FinishWith | internal/analyticsagent/content.go:68-80 | A finish is the stream's last step; a failed one changes nothing. |
| ThinkFilter.PushKeepsSync | internal/analyticsagent/content.go:45-66 | A push succeeds exactly when the text so far is within the limits and has no stray tag, and adds its result to the shown text; "content changed" cannot happen. |
| ThinkFilter.ChunkingDoesNotMatter | internal/analyticsagent/content.go:27-80 | However the text is cut, delivery succeeds exactly when the complete text is acceptable and within the limits, and then the deltas together are the stripped text. |
| AdaptiveText.DeltasAddUp | internal/analyticsagent/minimax.go:1087-1098 | Whatever the provider sends, the deltas published add up to the text the client ends with. |
| AdaptiveText.CumulativeStreamsAreRead | internal/analyticsagent/minimax.go:1087-1098 | A stream of growing texts is read as its last text. |
| AdaptiveText.WhenChunksAreRead | internal/analyticsagent/minimax.go:1087-1098 | A stream of chunks is read as their concatenation exactly when no chunk starts with all the text before it. |
| AdaptiveText.ARepeatedChunkIsLost | internal/analyticsagent/minimax.go:1087-1098 | Two equal first chunks are read as one. |
| AdaptiveText.ReadStreamsAreDelivered | internal/analyticsagent/minimax.go:651-680 | The browser is shown the filtered text the client ends with, and delivery depends on that text and the limits alone. |
| ChatStream.EventSink.Send | internal/analyticsagent/run.go:108-139 | Events arrive in order until the connection fails, and after the first failure none does. |
| ChatStream.RoundStream.Push | internal/analyticsagent/run.go:1099-1119 | What the filter lets through is what the browser shows, and the filter's errors are the only refusals. |
| ChatStream.RoundStream.Reset | internal/analyticsagent/run.go:1148-1158 | Withdraws what the attempt published; nothing is sent when nothing was published. |
| ChatStream.RoundStream.FinishRound | internal/analyticsagent/run.go:1121-1131 | After a round of tool calls the browser shows nothing. |
| ChatStream.RoundStream.Flush | internal/analyticsagent/run.go:1133-1146 | After the answer the browser shows the stripped authoritative content, or nothing if it was refused; content that equals the streamed text is not refused. |
| ChatStream.ChatRun.InvokeProvider | internal/analyticsagent/run.go:462-496 | During an attempt the browser shows what the filter let through; its outcome is that of the script, or the refusal of the filter. |
| ChatStream.ChatRun.CallModel | internal/analyticsagent/run.go:400-460 | At most two attempts, the second only after a retryable failure of the first; a partial answer is withdrawn before the second and after the last failed one. On a connection that holds, the round ends as its script says. |
| ChatStream.ChatRun.FinalContent | internal/analyticsagent/run.go:585-634 | An answer is complete, not empty, leaves room for the notices and is what the browser shows; every refusal leaves the browser empty. |
| ChatStream.ChatRun.Execute | internal/analyticsagent/run.go:329-386 | The loop ends with an answer that the browser shows or an error, after at most maxRounds rounds and two attempts each; the loop limit is the error exactly of a run without rounds. |
| ChatStream.ChatRun.RunChat | internal/analyticsagent/service.go:395-428 | On success the text since the last reset is the signed message, answer and notices, and fits a browser message; unless the connection breaks, the last round, the error and the text on screen are those the script comes to, and a connection that takes every event never breaks. |
| ChatStream.WhenTextStays | internal/analyticsagent/run.go:329-460 | A failed turn leaves a text on screen exactly when it comes to an attempt that fails with the turn's time up, or asks for tools without saying so or in a round without tools, and what stays is what the filter had let through of that attempt. |
| ChatStream.ATimeoutLeavesText | internal/analyticsagent/run.go:435-437 | A script in which time runs out while an answer is streaming, and its text stays. |
| ChatStream.AToolCallInTheLastRoundLeavesText | internal/analyticsagent/run.go:366-373 | A script in which the provider asks for tools in the last round, and the prose before stays. |
| ProviderContext.FitProviderContext | internal/analyticsagent/run.go:498-546 | Drops the fewest oldest user and assistant pairs that make the request fit, never the first message or the latest question, and fails only when none of these drops fits. |
| ProviderContext.FindLatestUser | internal/analyticsagent/run.go:521-530 | Finds the last user message after the first message. |
| ProviderContext.DroppingKeepsTheShape | internal/analyticsagent/run.go:498-502 | Dropping pairs keeps the system prompt, the question and everything after it, and the alternation before it. |
| ProviderContext.RequestKeepsTheProtocol | internal/analyticsagent/run.go:671-728 | A request of this shape follows every tool request with one result per call, in call order. |
| ProviderContext.Conversation.AppendBudgetNotice | internal/analyticsagent/run.go:388-398 | The budget notice is appended once. |
| ProviderContext.Conversation.AppendToolRound | internal/analyticsagent/run.go:705-728 | A tool round appends the assistant message and one result per call, in call order. |
| ProviderContext.Conversation.Fit | internal/analyticsagent/run.go:464-470 | What is sent keeps the protocol and fits, and what a failed fit leaves is unchanged. |
| ProviderContext.AgentLoop.CallModel | internal/analyticsagent/run.go:400-470 | At most two requests a round, each a good one: the protocol kept, the prompt first, the question the last of the user's messages, and within the context window. |
| ProviderContext.AgentLoop.Execute | internal/analyticsagent/run.go:329-386 | Every request the whole loop ever sends is a good one, through notices, tool rounds, retries and trimming; at most two a round. |
| TurnBudget.Capped | internal/analyticsagent/service.go:466-473 | A specialist's limit is its own unless it has none or the service's is lower. |
| TurnBudget.LocalStepKeeps | internal/analyticsagent/run.go:56-104 | One agent's step keeps its bounds and moves allowance from the budget to the agent without making or losing any. |
| TurnBudget.PlanKeepsOnce | internal/analyticsagent/run.go:732-840 | Planning a call keeps every fingerprint planned or run at most once. |
| TurnBudget.LocalKeepsBudget | internal/analyticsagent/run.go:45-104 | The step of any agent keeps the shared accounts: calls, bytes, delegations, usage. |
| TurnBudget.EveryTurnEnds | internal/analyticsagent/run.go:329-386 | No run of a turn takes more steps than its limits allow: every turn terminates. |
| TurnBudget.EveryTurnIsBounded | internal/analyticsagent/run.go:18-104 | In every reachable state: at most three specialists, counted calls and kept bytes within the shared budget, provider attempts at most two per round over all agents. |
| TurnBudget.NoCallRunsTwice | internal/analyticsagent/run.go:809-818 | No agent executes one canonical call twice, and only the lead delegates. |
| TurnBudget.ReportedUsageIsTheRecords | internal/analyticsagent/run.go:923-1020 | On a successful turn the reported usage is the lead's plus that of every recorded specialist, failed ones included, and every specialist is recorded. |
| AgentRuns.RunBudget.TakeToolCall | internal/analyticsagent/run.go:54-64 | Takes one call, or none when none is left. |
| AgentRuns.RunBudget.TakeOutput | internal/analyticsagent/run.go:76-86 | Takes all the bytes of a result or none. |
| AgentRuns.AgentRun.BeginRound | internal/analyticsagent/run.go:330-341 | The round is final exactly when it is the last one, the shared budget is spent or the agent's calls are. |
| AgentRuns.AgentRun.CountResponse | internal/analyticsagent/run.go:415-426 | A completed request counts as one at least, for the agent and for the turn. |
| AgentRuns.AgentRun.PlanCall | internal/analyticsagent/run.go:732-840 | The branches of planning do to the agent and the budget exactly the planning step, a duplicate is rejected only when its fingerprint was seen, and only the lead gets a delegation. |
| AgentRuns.AgentRun.ExecuteCall | internal/analyticsagent/run.go:946-961 | Running a call takes its bytes or refuses its result, and moves it to the executed calls. |
| TurnRunners.CallModel | internal/analyticsagent/run.go:400-460 | The provider requests of a round are attempts of the turn's agent, and end with a response or the end of the agent. |
| TurnRunners.PlanCalls | internal/analyticsagent/run.go:671-686 | Planning the calls of a round in order is the agent's planning steps; only the lead gets delegations. |
| TurnRunners.RunSpecialist | internal/analyticsagent/run.go:965-1020 | A delegation starts a specialist of the turn with its own script, runs it to its end over the same budget, and records its usage, also when it failed. |
| TurnRunners.RunAgent | internal/analyticsagent/run.go:329-386 | An agent's whole loop is a run of its steps in the turn, each called for by its script, from idle to finished; a specialist's moves no other agent, and when the lead succeeds all its specialists are recorded. |
| TurnRunners.RunTurn | internal/analyticsagent/service.go:395-428 | The code's loops, lead and specialists over one budget, end as a run of the turn does that follows the scripts of its agents. The lead and the rest of the budget they leave are those of that run's end: calls and bytes taken and left make up the limits, attempts are at most two a round over all agents, at most three specialists were started, and the usage of a successful turn is the lead's plus the sum of the specialists' records. |
| TurnRunners.TheEndIsBounded | internal/analyticsagent/service.go:414-427 | What holds of the end of every run of a turn that follows scripts: the conservation of the allowance, the bounds, and the usage of the records, for the returned lead, budget and records. |

## Left out

- OverviewReads.CachedOverview: under a model filter the tokens are not compared, because the cached half sums model-attributed tokens and the live half all tokens.
- OverviewReads.CachedOverview: request accounting is not modelled; the cache derives a usage status that the live half does not, so it has no one-pass meaning.
- DailyReads.CachedDaily: a request that is served live only is not modelled; the cost status of the list as a whole is the one of the overview.
- HourlyReads.CachedHourly: a request served live only is not modelled, nor one from the cache alone whose first hour is not before the cutoff, nor the bucket that spans a cutoff inherited off the hour, whose sessions the code documents as over-counted.
- ModelReads.CachedModels: the order of the list and the averages per entry are not modelled; the live source's own list is taken as one pass over its log.
- MessagePages.CachedMessages: running out of memory below the allocation bound, the page arithmetic of a live source and the cost status of the list are not modelled.
- SessionPages.CachedSessions: a request served live only is not modelled; titles, project names and cost status of a session are not modelled, and the filters of each half are one predicate on ids.
- TurnRunners.RunTurn: the messages an agent sends and the text it streams are the subject of two other drivers of the same loop, ProviderContext.AgentLoop and ChatStream.ChatRun, each over a script of its own; that one turn does all three is not one statement. It runs the calls of a round one after the other; the runs of TurnBudget interleave them in every way. A specialist that cannot be started is one that ends at once.
- CacheStore.Store.SyncSource: one source; pruning sources that are no longer registered, projects, provenance notes and other first-wins metadata are not modelled.
- SyncJobs.AcceptedNoticesAreServed: that a job which targets a source then syncs it is not stated: the source may be unavailable or its sync may fail.
- ChatStream.ChatRun.RunChat: when the connection breaks, what stays on screen is only that the events before the break arrived and none after.
- TurnBudget.EveryTurnEnds: goroutines are steps, so a provider or tool that never answers is outside the model; the turn's timeout ends those.
- StateMemo.ReadsAreNeverOlderThanAnInvalidation: the generation counter is unbounded here, a 64-bit one in the code.
- Trends by dimension, and group-bys per tool and per project: they add list columns over the same tables; per-tool and per-project session sums are documented over-counts.
- The degraded reads when the live source fails: they fall back to the cached half.
- Malformed dates, negative times and a cutoff in the future of the clock.
- 64-bit overflow of sums and floating-point rounding of costs.
- The stability of sorts: no two rows compare equal.
- Specialists publish no answer text, so their streams are not modelled; runs that do not stream send no events.
- How a tool-call fragment stream is resolved into calls, JSON, HTTP, HMAC signatures, prompts and provider error classification.
- The contents of the digests and the file walks behind fingerprints.
