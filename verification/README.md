# Verification model of the crawler

The crawler lists GitHub accounts, fetches their public SSH keys and serves a reverse
lookup.  Its hard part is a durable work protocol: rows of a database are shared state,
several kinds of worker change them in small transactions, and workers may crash, lose
their lease or receive inconsistent pages at any point.  This project models that
protocol and its smaller cores in Dafny and proves what they promise.

`dafny verify dfyconfig.toml` checks everything.

## How it is organised

| modules | what they model |
|---|---|
| `Prelude`, `RangeDivision` | shared vocabulary; the four integer range splitters |
| `EnumerationPage` | one page of the ascending account listing and the worker's decision |
| `Publication`, `KeyHistory` | permanent key history, the present set, the refresh stage |
| `OverflowScan`, `OverflowQueue` | the two-pass scan of accounts with more keys than one page; the tables updated in place |
| `WorkTables`, `WorkProtocol` | the transactions of runs, shards and account queue; their interleavings as a state machine with history and invariant |
| `WorkProofs`, `ShardProofs`, `QueueProofs`, `PageProofs`, `CompletionProofs` | every step keeps the invariant |
| `WorkTheorems`, `Fencing`, `Durability` | what follows for whole runs |
| `ShardCoverage`, `RepairHazards` | exactly when the shards of a run leave a gap; concrete traces where a repair defeats the guarantees |
| `CrawlStore` | the same transactions as methods with loops and rollbacks over mutable fields, proved to be the ones above |
| `KeySnapshot` | response checks before an account is settled |
| `Sweep`, `SweepTables` | the federation sweep over dense numeric IDs |
| `FederationCrawl` | sweep and account queue as one system: nothing due is passed without a durable row |
| `Ledger` | the coverage bitmap with its counters |
| `Audit`, `AuditRepair` | the time ranges of the coverage audit; the accounts listed for them and their reconcile rows |
| `HighWater`, `Pacer`, `LanePool`, `IpLimiter` | high-water search, request pacing, credential lanes, the API's client limiter |
| `ByteOrder`, `Base64`, `Cursor`, `Pagination`, `RsaKey` | byte formats, the page cursor and the snapshot walk, the RSA key reader |

A transaction is a function from tables to tables; the class methods beside it work as the
source does, and their contracts equate the new state with that function of the old one.
Whole-run results are lemmas over all sequences of steps.  Some state machines carry
history (what was ever enqueued, issued, created, settled, resolved); the program does not
store it, and no transaction reads it.  The table below names the theorems and the methods with loops or
rollbacks; that every single step keeps the invariants is proved by the `...Keeps` lemmas behind them.

## Assumptions

- Transactions are serial, atomic steps.  The subqueries that ask whether an unfinished shard
  is left depend on this.
- One crawler process holds the advisory lock, so a shard in progress has one owner and needs no token.
- A crash forgets what workers and the monitor know; `Recover` runs before anything else does.
- Random identifiers are fresh: the model draws row identifiers, scans and tokens from one counter.
- The database starts empty, with counters at zero; rows of the anomaly table may be arbitrary.
- The listing is a fixed set of IDs.  Any page may arrive, but one that the worker does not refuse is a prefix of
  what follows the requested ID, and its link skips no listed account.  A shard's stored URL is represented by the
  ID it encodes.
- Workers present only claims they were given.  A result's reported total is at least the number of
  keys it lists.
- Which accounts of a batch exist and have keys is for the sweep's environment to decide; whether an account is a known
  owner is read from the tables.
- Clocks of the pacer, the lane pool and the client limiter are monotone and fixed during a call.
- Owners inserted after a snapshot was taken have a first sighting strictly later than it.

## What does not hold

- `SeedEnumerationRepair` before the primary shards exist makes `EnsureEnumerationShards` skip them, and
  the run is enumerated without the IDs outside the repair (`RepairHazards.EarlyRepairGap`).
  `ShardCoverage.GapIff` says exactly when a gap remains; `RepairHazards.EarlyRepairOfAll` is an early repair without one.
- A repair seeded between the reads of `MaybeCompleteMain` and its commit is closed over
  (`RepairHazards.EarlyCompletion`); without one, completion is sound (`WorkTheorems.CompletionIsSound`).
  `WorkTheorems.CommitRightIff` gives the exact condition.
- A crash while the audit worker holds a range strands it: nothing returns an enumerating range to pending
  (`Audit.CrashStrandsRange`), so the generation is never reconciled.  `Audit.StrandedIff` says exactly when.
- A resolved range of the coverage audit need not have settled its accounts: staging resolves it when no new row was
  inserted, also when a listed account merely has a reconcile row already, such as one of an older generation
  (`AuditRepair.ReconciledUnsettled`).  If such an account is listed beside others that are queued, the range is never
  resolved, since the row that exists reports to another range.  `AuditRepair.StagingDecides` gives the exact condition
  for both, and `AuditRepair.ListedKept` what is guaranteed all the same.
- An account whose first key page is empty but continues, and which was no owner, is settled as having
  no keys (`KeySnapshot.EmptyFirstPageIsLost`); `KeySnapshot.ZeroKeysExactly` says when.
- `sameKeySet` is no set comparison for lists with duplicates (`KeySnapshot.SameKeySetNeedsDistinct`); its
  callers pass lists without.

## Model

| member | source | states |
|---|---|---|
| RangeDivision.TilesExactly | internal/store/store.go:1255-1272 | an ID lies in a divided range iff it lies in a piece, and then in exactly one |
| RangeDivision.PrimaryTiles | internal/store/store.go:1255-1272 | the primary shards are non-empty, consecutive, and cut next..cutoff without remainder, at most `count` of them |
| RangeDivision.ProportionalTiles | internal/store/store.go:1328-1343 | repair and sweep shards: exactly `count` non-empty pieces that tile the range, sizes differing by at most one |
| RangeDivision.RebalanceTiles | internal/store/store.go:1538-1564 | the mid-flight split: exactly `pieces` pieces that tile the remaining range, none below 100 IDs |
| RangeDivision.FitsInt64 | internal/store/store.go:1255-1343 | for IDs below 2^54 and up to 256 pieces no intermediate product or sum leaves int64 |
| EnumerationPage.PlanExact | internal/crawler/service.go:671-736 | an accepted page of an honest listing yields exactly the users between the old and the new checkpoint, strictly ascending, and the checkpoint moves forward without passing the upper bound |
| EnumerationPage.PlanRefusesOnlyDeadEnds | internal/crawler/service.go:671-736 | an honest page is refused iff it neither reaches the bound nor links forward |
| EnumerationPage.PlanEnumerationPage | internal/crawler/service.go:671-736 | the worker's loop, with its early returns, decides what the specification decides for every page, honest or not |
| WorkTheorems.StepKeeps | internal/store/store.go:1056-3834 | every step of enumeration workers, key workers, monitor, schedulers and crashes keeps the invariant of the work protocol |
| WorkTheorems.EveryRunKeeps | internal/store/store.go:1056-3834 | the invariant holds in every state that any sequence of such steps reaches from an empty database |
| WorkTheorems.NoGap | internal/store/store.go:1397-1452 | once all shards of a run are completed, the accounts enqueued for it are exactly the users in the ranges it was cut from |
| WorkTheorems.PrimaryCoversAll | internal/store/store.go:1233-1274 | cutting the primary shards covers 1..cutoff, unless the run has shards already; then nothing changes |
| WorkTheorems.NoEnumerationGap | internal/crawler/service.go:516-607 | however claims, pages, splits, requeues, crashes and recoveries interleave, when all shards are completed every user up to the cutoff was enqueued, and is still queued or was settled for the run |
| WorkTheorems.CompletionIsSound | internal/store/store.go:3769-3834 | the three separate reads of the monitor close a run only when all shards are completed and no account, overflow or anomaly row of it exists, then or in any later state, if no repair is seeded in between |
| WorkTheorems.ClosedRunSettledAll | internal/store/store.go:3769-3834 | in a soundly closed run every user of its ranges was settled, and what had keys was published |
| RepairHazards.PrimaryStillPossible | internal/store/store.go:2187-2230 | a run that was just given its cutoff meets what the gap theorem asks for |
| RepairHazards.EarlyRepairGap | internal/store/store.go:1233-1274 | counterexample: a repair seeded before the primary shards makes the run count as enumerated with a user below the cutoff never listed |
| RepairHazards.EarlyRepairOfAll | internal/store/store.go:1233-1274 | an early repair that reaches the cutoff leaves no gap, although the primary shards are not cut |
| ShardCoverage.RowsCoverExactly | internal/store/store.go:1233-1569 | in every reachable state the shard rows of a run together cover exactly the ranges it was ever cut from, splits included |
| ShardCoverage.GapIff | internal/store/store.go:1233-1274 | exactly when a gap remains: after EnsureEnumerationShards and whatever follows without another repair of the run, once all its shards are completed, every user up to the cutoff was enqueued iff each of them lies in some shard row of the run right after that call, that is, iff the run had no shard before it or its shards covered them |
| RepairHazards.EarlyCompletion | internal/store/store.go:3769-3834 | counterexample: a repair seeded between the monitor's reads and its commit leaves a closed run with an unfinished shard |
| WorkTheorems.CommitRightIff | internal/store/store.go:3769-3834 | exactly when a commit is right, repairs or not: the closed run is complete with nothing pending iff the checks made before would still pass at the commit |
| RepairHazards.RepairBeforeCommit | internal/store/store.go:3769-3834 | this happens for every repair accepted right before the commit |
| CompletionProofs.AllHeld | internal/store/store.go:2428-2435 | the row count of the DELETE equals the batch size only if every claim is held, each on its own row |
| CompletionProofs.TallyRows | internal/store/store.go:2383-2397 | per run, the zero and owner counts of a batch add up to its deleted queue rows |
| CompletionProofs.SettleAllAs | internal/store/store.go:2306-2382 | settling a batch publishes or opens exactly one scan per account as its result says, and disturbs no other scan |
| CompletionProofs.NoClip | internal/store/store.go:2030-2038 | the LEAST limit on attempted_users never takes effect |
| Fencing.ClaimExact | internal/store/store.go:2109-2156 | a row is in progress iff it has a token and a lease; its claim says what the row says; no two rows share a token |
| Fencing.OldTokenHarmless | internal/store/store.go:2782-2858 | a holder of another token changes no column of a row, by requeue, move, attempt mark, completion or as part of any batch |
| Fencing.AllOrNothing | internal/store/store.go:2419-2435 | a batch completes with all its claims held and all its rows gone and settled, or changes nothing |
| Fencing.LeavesOnlySettled | internal/store/store.go:2428-2435 | over all steps, a row leaves the queue only under its own current claim, in the step that settles it |
| Fencing.NoLostWork | internal/store/store.go:2243-2515 | every row ever created is queued or settled, never both; what was settled as published was published, as overflow is still scanned for the same run or was published |
| Fencing.CountersConserved | internal/store/store.go:2475-2486 | in every reachable state enumerated minus processed is the run's queue rows, processed is zero plus owner plus inaccessible plus error, attempted lies between 0 and enumerated |
| Fencing.AttemptsExact | internal/store/store.go:1936-2056 | in every step the attempt counter moves by exactly the rows that become counted, and a counted row stays counted, so each row counts once |
| Fencing.LaneChangesOnlyByHolder | internal/store/store.go:2829-2858 | over all steps a row changes between the primary and the fallback lane only by its holder; claims, leases, crashes and reaping leave it where it is |
| Fencing.ClaimLasts | internal/store/store.go:3177-3215 | a claim survives every reaping within two hours; any later one frees the row, in the lane it was claimed from, and nobody holds it |
| Fencing.RequeuedWaits | internal/store/store.go:2782-2823 | a row returned by its holder is not claimed before it is due |
| OverflowScan.LeaseAndRest | internal/store/store.go:3250-3288 | the same for overflow rows, and a restarted scan rests for a minute |
| Durability.RowForGood | internal/store/store.go:2428-2435 | a queue row is in every later state still queued for the same account or settled under a claim on it |
| Durability.StagedForGood | internal/store/store.go:1708-1760 | every account the sweep staged has a durable federation row, new or already there, queued or settled in every later state |
| FederationCrawl.PassedIsKept | internal/crawler/service.go:340-420 | sweep and queue run as one system: each ID a checkpoint has passed as due was fetched at a moment m with keys or a known owner, its account had a federation row in the queue at a later moment n, and that row is still queued or was settled under a claim on it; settled as published it is published, as overflowing it is published or still scanned |
| FederationCrawl.PassedHappens | internal/crawler/service.go:290-430 | such IDs exist: a run of six steps in which an ID is passed as due |
| FederationCrawl.FinishedRunHandled | internal/crawler/service.go:290-430 | in a finished sweep run every ID of the range was fetched, and either was not to be recorded then, or was staged afterwards and its row was not lost since |
| FederationCrawl.SweepHandledAll | internal/store/store.go:1589-1864 | when no sweep run is active, that holds of every ID up to the greatest upper bound |
| Publication.PublishExact | internal/store/store.go:2580-2686 | publishing a scan makes exactly its keys present, keeps all history and other accounts, and resets the refresh stage iff the present set changed, otherwise advances it by one up to the last stage |
| Publication.InaccessibleExact | internal/store/store.go:3084-3096 | an inaccessible account has no key present and loses no history |
| Publication.KeyIndex.Observe | internal/store/store.go:2580-2612 | observing keys one by one, in any order and with repetitions, equals observing the set |
| Publication.KeyIndex.FinalizeObservation | internal/store/store.go:2634-2686 | the sweep of unseen keys and the stage update together are the finalising transaction |
| Publication.KeyIndex.PublishScan | internal/store/store.go:2349-2367 | observing and finalising together are the publication whose exactness is proved |
| Publication.KeyIndex.Hide | internal/store/store.go:3082-3096 | afterwards no key of the account is present, no history is lost and no other account has moved |
| KeyHistory.HistoryPermanent | internal/store/store.go:2580-2686 | over any sequence of protocol steps no association and no owner is removed and none forgets when it was first seen |
| KeyHistory.PublishedOnce | internal/store/store.go:2580-2686 | in every reachable state removed_at is null iff the key is present, each scan was published at most once, and no association carries the mark of an open scan |
| KeyHistory.TwoPassSafety | internal/store/store.go:3317-3492 | in every reachable state an overflow page publishes only as the last of pass 2, with equal staged sets of the size every accepted page reported, and then exactly that set is present |
| OverflowScan.PublishesOnlyVerified | internal/store/store.go:3317-3492 | the same for one page, with the queue row and its staging gone afterwards |
| OverflowScan.VerifiedScanPublishes | internal/store/store.go:3430-3482 | conversely, the last page of pass 2 that completes an equal set does publish |
| OverflowScan.OpenScanInvisible | internal/store/store.go:3317-3492 | no key association was written by a scan that is still open |
| OverflowScan.StaleClaimHarmless | internal/store/store.go:3352-3482 | an outdated claim changes nothing, by page, restart, requeue or REST completion |
| OverflowScan.FromRESTKeeps | internal/store/store.go:3498-3554 | a REST snapshot under a current claim makes exactly its keys present and ends the scan |
| OverflowScan.DirectKeeps | internal/store/store.go:2349-2367 | an account whose keys fit one page has exactly these present |
| OverflowQueue.OverflowTables.CompletePage | internal/store/store.go:3317-3492 | the transaction in the source's order of checks, with rollback, is the specified one; it succeeds iff the page is not refused |
| OverflowQueue.OverflowTables.StageKeys | internal/store/store.go:2614-2632 | staging a list with repetitions adds its set to the pass |
| OverflowQueue.OverflowTables.RestartScan | internal/store/store.go:3612-3642 | deleting the staging first and finding the claim stale afterwards leaves everything as it was |
| OverflowQueue.OverflowTables.PublishVerified | internal/store/store.go:3445-3492 | the verified rows are read back and published; a stale claim found at the DELETE undoes the publication |
| OverflowQueue.OverflowTables.ReadBack | internal/store/store.go:3445-3465 | reading the staged rows back one by one yields the set, each element once |
| OverflowQueue.OverflowTables.CompleteFromREST | internal/store/store.go:3498-3554 | the REST completion with its rollback is the specified one |
| OverflowQueue.OverflowTables.OpenScan | internal/store/store.go:2312-2348 | opening a scan writes row and first staging as specified |
| CrawlStore.Store.EnsureShards | internal/store/store.go:1233-1274 | the loop over moving bounds inserts exactly the primary pieces, once per run |
| CrawlStore.Store.AddRepairShards | internal/store/store.go:1280-1371 | skipping conflicting pieces and comparing the count at the end refuses exactly the repairs with a boundary in use and otherwise inserts all pieces |
| CrawlStore.Store.RebalanceOwned | internal/store/store.go:1497-1569 | the split with its conflict checks and rollback is the specified one and reports the owner's new upper bound |
| CrawlStore.Store.EnqueuePage | internal/store/store.go:1454-1491 | candidate by candidate insertion reports exactly the rows created |
| CrawlStore.Store.ApplyPage | internal/store/store.go:1397-1452 | the page transaction: rows, checkpoint, counters and the two completion subqueries |
| CrawlStore.Store.StageResults | internal/store/store.go:1712-1760 | each account gets one claimed row unless it has a federation row |
| CrawlStore.Store.Release | internal/store/store.go:2782-2858 | rows still matching are released even when the call then reports a mismatch |
| CrawlStore.Store.ReapExpired | internal/store/store.go:3177-3215 | afterwards no claim is left that expired before now; a changed row was in progress, has lost its token, is due at once and is about the same account |
| CrawlStore.Store.RecoverAll | internal/store/store.go:874-906 | afterwards no row is in progress and no shard is being worked on; rows stay about the same account, idle rows stay as they were, checkpoints stay where they were |
| CrawlStore.Store.MarkPhase | internal/store/store.go:1951-1980 | the first transaction marks all rows of the batch or none |
| CrawlStore.Store.TallyClaims | internal/store/store.go:1999-2030 | the tally per run is the number of its matched rows not counted before |
| CrawlStore.Store.CountPhase | internal/store/store.go:1985-2056 | the second transaction adds each run's tally and marks the rows, or does nothing |
| CrawlStore.Store.Classify | internal/store/store.go:2383-2397 | the counts collected in the loop are the numbers of accounts per run without and with keys |
| CrawlStore.Store.SettleJobs | internal/store/store.go:2306-2414 | the loop settles every account by the owners read before it and stops at a result without cursor |
| CrawlStore.Store.CompleteAccounts | internal/store/store.go:2243-2515 | the whole transaction over queue, overflow tables, key index and counters, undone when the DELETE finds a stale claim |
| CrawlStore.Store.CompleteGone | internal/store/store.go:3071-3175 | hiding the account is undone when its claim is stale |
| KeySnapshot.NormalizeKeys | internal/crawler/service.go:1489-1507 | a key list is accepted iff every key parses to the fingerprint given for it and none repeats, and is returned in order |
| KeySnapshot.SameKeySetExact | internal/crawler/service.go:1255-1269 | for lists without duplicates the comparison decides equality of the sets |
| KeySnapshot.SameKeySetNeedsDistinct | internal/crawler/service.go:1255-1269 | with duplicates it would not: a pair of lists it wrongly calls equal |
| KeySnapshot.CompareKeySets | internal/crawler/service.go:1255-1269 | the two loops compute that comparison |
| KeySnapshot.NormalizeRESTKeys | internal/crawler/service.go:1509-1525 | a REST key list is accepted iff every key parses and no two to the same fingerprint, and is returned in order |
| KeySnapshot.RESTSnapshot | internal/crawler/service.go:1177-1220 | a snapshot is accepted iff its list is normal and, when it had several pages, the second reading is normal too and lists the same keys; the result is the last reading |
| KeySnapshot.ZeroKeysExactly | internal/store/store.go:2312-2397 | an account that GitHub counts keys for is settled as having none iff it was no owner and its first page is empty but continues |
| KeySnapshot.EmptyFirstPageIsLost | internal/crawler/service.go:1455-1468 | such an answer passes the response check |
| KeySnapshot.SplitFailedBatch | internal/crawler/service.go:1000-1015 | a failed batch is divided without losing or doubling a job: at least three attempts to the fallback, fewer to the retry |
| Sweep.EveryRunKeeps | internal/store/store.go:1589-1864 | the invariant holds after any sequence of runs, lost leases and crashes |
| Sweep.SweepHasNoHole | internal/store/store.go:1589-1678 | when no sweep run is active every ID up to the greatest upper bound was resolved |
| Sweep.FinishedRunResolvedAll | internal/store/store.go:1824-1841 | a run that is no longer active resolved every ID of its range |
| Sweep.CheckpointBoundsPrefix | internal/store/store.go:4223-4247 | the reported contiguous checkpoint bounds a completely resolved prefix of the run |
| SweepTables.LeaseHolds | internal/store/store.go:1680-1706 | a claimed or advanced shard survives every reaping within two hours and none later |
| Sweep.StaleWorkerHarmless | internal/store/store.go:1812-1823 | a worker whose token was replaced changes no shard and no run |
| SweepTables.Tables.EnsureSweepRun | internal/store/store.go:1589-1678 | nothing while a run is active or none is due, otherwise the next range and its shards |
| SweepTables.Tables.InsertShards | internal/store/store.go:1661-1673 | the inclusive bounds computed in the loop are the proportional pieces |
| SweepTables.Tables.ClaimShard | internal/store/store.go:1680-1706 | the claimable shard with the least next ID is claimed, none only if there is none |
| SweepTables.Tables.AdvanceShard | internal/store/store.go:1786-1845 | the checkpoint moves iff token, status and expected start match and the new start is in range; the last shard closes the run |
| SweepTables.Tables.ReapExpired | internal/store/store.go:3199-3207 | exactly the expired shards are released |
| Ledger.Bitmap.SetBits | internal/store/store.go:103-165 | setting bits chunk by chunk, with duplicates and in any order, makes the bitmap the old set plus the input, reports exactly the new IDs once each, and refuses the list iff an ID is not positive |
| Ledger.Bitmap.SetChunk | internal/store/store.go:134-162 | the same for one chunk of 8192 bits copied out, changed in place and written back |
| Ledger.CountedBitmap.Mark | internal/store/store.go:167-245 | the discovered and inaccessible counters always equal the bitmap's population |
| Ledger.DatedBitmap.Mark | internal/store/store.go:184-228 | successful accounts: counter, bitmap and per-day counts agree; an account without creation time undoes the transaction iff it is new |
| Ledger.DatedBitmap.DaysSumToSuccessful | internal/store/store.go:207-226 | the per-day counts sum to the successful counter |
| Audit.EveryRunKeeps | internal/store/store.go:299-596 | in every state of an audit: a split range has both halves, rows are unique, days stay seeded, a reconciled generation has no open or unresolved range |
| Audit.EverySecondCovered | internal/store/store.go:299-451 | whatever was split, sampled or retried, every second up to the cutoff lies in a range that is not split |
| Audit.ReconciledEverywhere | internal/store/store.go:574-595 | a generation is reconciled only when each of its seconds lies in a range whose counts agreed or that has status resolved |
| AuditRepair.ListedKept | internal/store/store.go:491-572 | no listed account is forgotten: it has its bit in the generation, or a row or overflow scan of it is under way, or it was settled for another generation since its range was staged; and it is flagged only with its bit |
| AuditRepair.ReconciledMeans | internal/store/store.go:574-595 | a generation is reconciled only when each of its seconds lies in a range whose counts agreed or in a resolved one all of whose listed accounts are kept in that sense |
| AuditRepair.ReconciledUnsettled | internal/store/store.go:534-556 | counterexample: a reconciled generation with a listed account that nobody settled |
| AuditRepair.StagingDecides | internal/store/store.go:534-556 | exactly what staging leads to, from the tables before it: with no row to insert the range is resolved at once, and all its accounts were successful iff none without a bit had a reconcile row already; otherwise it can ever be resolved iff none had |
| AuditRepair.CanResolveIff | internal/store/store.go:2493-2513 | a range under repair has a continuation that resolves it iff every account still open for it has a row or scan of its own |
| Audit.CrashStrandsRange | internal/store/store.go:318-353 | counterexample in general form: after a crash while the worker holds a range, it stays enumerating in every later state and the generation never gets another verdict |
| Audit.FirstClaimHolds | internal/store/store.go:318-353 | already the first claim of any audit can be stranded so |
| Audit.StrandedIff | internal/store/store.go:318-353 | every range being enumerated is in the worker's hands iff no crash came while it held one |
| Audit.TreeSize | internal/store/store.go:453-462 | splitting a range of n seconds can produce at most 2n - 1 ranges |
| Audit.FewRows | internal/store/store.go:415-462 | so many rows at most exist for it, and every row comes from a day or a sampled minute |
| Audit.Partitions.SeedAll | internal/store/store.go:299-316 | the days from the epoch to the cutoff, the last one clipped, inserted where missing |
| Audit.Partitions.SplitPart | internal/store/store.go:415-462 | both halves are inserted where missing and the range is marked; a single second becomes unresolved |
| Audit.Partitions.MarkConsistent | internal/store/store.go:367-413 | the sampled minute of a consistent range, clipped to it |
| HighWater.Discover | internal/crawler/service.go:1947-1985 | for every int64 start the search returns exactly the greater of start and largest ID, or reports the range error iff an ID lies beyond the last bound it can double to |
| HighWater.Double | internal/crawler/service.go:1956-1973 | the doubling loop stops without overflow at a bound nothing lies beyond |
| Pagination.Walk | internal/api/server.go:331-388 | following the cursor to the end lists every owner of the snapshot exactly once in ID order, while owners are added between requests |
| Pagination.Users | internal/api/server.go:331-424 | one page: the limit, the extra row, and the cursor of the last row |
| Cursor.RoundTrip | internal/api/server.go:426-453 | decoding undoes encoding for every ID from 0 to 2^63 - 1 and every time from 2000 to 3000; anything else is refused |
| Cursor.AcceptsOnlyPayloads | internal/api/server.go:434-453 | a cursor is accepted only if its bytes are those of a position in range |
| Base64.RawRoundTrip | internal/api/server.go:426-453 | decoding undoes unpadded encoding in both alphabets, strict or not |
| Base64.PaddedRoundTrip | internal/sshkey/sshkey.go:86-96 | decoding undoes padded encoding, strict or not |
| Base64.RawStrict | internal/sshkey/sshkey.go:86-96 | strict unpadded decoding accepts nothing but encodings |
| Base64.PaddedStrict | internal/sshkey/sshkey.go:86-96 | strict padded decoding accepts nothing but encodings |
| RsaKey.AcceptedExactly | internal/sshkey/sshkey.go:42-83 | a blob is accepted iff it is algorithm, exponent and modulus fields with canonical positive mpints, at most 64 KiB and nothing after them |
| RsaKey.IntegersDetermineBlob | internal/sshkey/sshkey.go:42-83 | the blob determines the two integers and they determine the blob |
| RsaKey.MPIntExact | internal/sshkey/sshkey.go:113-124 | every positive integer has an encoding the check accepts |
| RsaKey.MPIntUnique | internal/sshkey/sshkey.go:113-124 | and only one |
| RsaKey.BlobRoundTrip | internal/sshkey/sshkey.go:86-96 | padded and unpadded Base64 of a blob are read alike |
| RsaKey.BlobTextsExact | internal/sshkey/sshkey.go:86-96 | nothing but these two texts is accepted for it |
| RsaKey.CanonicalReparses | internal/sshkey/sshkey.go:42-83 | parsing the canonical form of an accepted key gives the same key |
| RsaKey.NormalizeIdempotent | internal/sshkey/sshkey.go:126-164 | fingerprint normalisation is idempotent, for digests and for keys |
| RsaKey.ReadSSHField | internal/sshkey/sshkey.go:98-111 | the field reader moves the offset past what it returns, and stops where a field is truncated |
| RsaKey.ReadKey | internal/sshkey/sshkey.go:42-83 | threading the offset through the three fields parses the blob |
| Pacer.StepOk | internal/ratelimit/pacer.go:92-133 | the interval is always the base times two to the number of strikes, of which there are 0 to 3, and cooldowns never shrink |
| Pacer.HitPauses | internal/ratelimit/pacer.go:109-133 | a secondary limit pauses for a minute or the wait asked for, and for fifteen minutes at most unless something longer is in force |
| Pacer.Spacing | internal/ratelimit/pacer.go:63-79 | over any run, reservations i and j are at least j - i base intervals plus all extra cost charged between them apart |
| Pacer.WindowBound | internal/ratelimit/pacer.go:63-79 | any window of length T holds at most ceil(T / base) reservations |
| Pacer.CooldownRespected | internal/ratelimit/pacer.go:92-154 | no reservation made after a cooldown was set starts inside it, be it asked for, caused by a secondary limit, or set until the reset when the reserve is reached |
| Pacer.Lane.ObserveRate | internal/ratelimit/pacer.go:92-107 | every thousandth success takes back one strike; reaching the reserve cools the lane until a second after the reset |
| Pacer.Lane.TakeHit | internal/ratelimit/pacer.go:109-133 | the fields after a limit are the state whose bounds on strikes, interval and pause are proved; hits within 30 seconds count as one strike |
| LanePool.Pool.Wait | internal/ratelimit/pool.go:53-82 | the earliest start over all active lanes is reserved, the first of equals in round-robin order, never before the global cooldown; other lanes keep their pacing; refused iff no lane is active |
| LanePool.Pool.SecondaryLimit | internal/ratelimit/pool.go:121-145 | the global breaker moves only when another lane was limited within 30 seconds, and then by a minute at least |
| LanePool.Pool.constructor | internal/ratelimit/pool.go:37-48 | the lanes are separate pacers, at least one |
| IpLimiter.EvictionInvisible | internal/api/server.go:559-577 | on a monotone clock the next call is answered as by a limiter that never forgets |
| IpLimiter.GrantsBounded | internal/api/server.go:559-577 | exactly the first `limit` calls of a client's window are granted |
| IpLimiter.WindowsDisjoint | internal/api/server.go:559-577 | a client's next window starts only when its last one is over |
| IpLimiter.Limiter.Allow | internal/api/server.go:559-577 | the method with its clean-up answers as the limiter that never forgets |

## Left out

- HTTP, JSON, response headers, credentials and signing: input and output; the environment is nondeterministic instead.
- SQL text, indexes, isolation anomalies and lock order: every transaction is one atomic step.
- Liveness, such as that every run ends: it depends on the network and on restarts; only the local loops are proved to end.
- The order in which due rows are claimed (`ClaimScheduledAccounts`, `ClaimRESTFallbackBatch`, `ClaimOverflow`): any due rows of one status may be claimed, which includes every order and limit.
- `quarantineAccounts`, `quarantineOverflow`, `enumerateMain`, `ApplyEnumerationPage`: not on the production path; hence `error_users` stays as it is and anomaly rows only disappear.
- Node IDs, logins, aliases and the other key columns of a public key: an account is its number, a key its fingerprint.
- The zero-key recheck schedule and the due dates of owner refreshes: only the refresh stage is modelled.
- Coverage calls inside queue transactions: the ledger and the audit are modelled on their own, a coverage chunk row as three bitmaps, and one generation at a time; in `AuditRepair` the reconcile rows of one generation are followed without their claims, and all other generations together are the environment.
- `key_scan_attempts`, progress statistics, worker heartbeats, status pages and the completion estimate: reporting only.
- The `ON CONFLICT` arms that would reuse the scan of an overflow row: a scan is fresh for every queue row, so they cannot be reached.
- The sweep's batch-size adaptation: any size from 25 to 250 may follow any batch.
- Jitter, back-off delays and the 20-slot class table: they would add only easy members.
- Overflow of durations in the pacer: intervals and waits are unbounded integers.
- Text is a sequence of characters; where the fingerprint code measures bytes, the model measures characters, which agree for ASCII.
- The general OpenSSH parser and SHA-256 are parameters of `NormalizeFingerprint`.
- RangeDivision.FitsInt64: stated for IDs below 2^54 and at most 256 pieces; the worker count that bounds a mid-flight split is a setting.
