# Scrape queue: a verified model

The scrape queue takes crawl jobs over HTTP, plans the pages of a job, fans them
out to one task per page, fetches them politely, and assembles the rows into a
result file. Messages can be delivered any number of times, a worker can die
between any two writes, and a caller can cancel at any moment. This project models
what has to stay true through all of that, and proves it.

| file | what it models |
|---|---|
| `States.dfy`, `Repo.dfy` | the job life cycle, the job tables, resume planning, and every transaction on them |
| `Export.dfy` | object keys, reading the pages back, settling a run, choosing the outcome |
| `Crawl.dfy` | the crawl protocol of one job as a state machine: transactions, uploads and dispatches are steps, everything else may happen in between |
| `CrawlInvariant.dfy`, `CrawlRuns.dfy` | what every step keeps, and what follows for every run |
| `CrawlOutput.dfy` | the fan-out refines one worker that reads the pages in order |
| `CrawlRedelivery.dfy` | a finaliser that nothing disturbs, and its callback delivered again |
| `CrawlPaths.dfy` | runs put together step by step, up to a whole chord and its finaliser |
| `CrawlResume.dfy` | what a resumed job's result file holds, and exactly when it is the whole target |
| `CrawlCounts.dfy` | exactly when recorded row counts agree with the stored pages |
| `CrawlRetries.dfy` | the retry budget of a page, in numbers |
| `CrawlEnds.dfy` | how jobs end: what a finaliser judges, unchanged incremental runs, cancelled and parked jobs |
| `Deployment.dfy` | many jobs over one store and shared targets: every job's part is a run of its own protocol |
| `Tasks.dfy` | the page task and `finalise_job` as methods, and the runs that they are |
| `TokenBucket.dfy`, `Circuit.dfy`, `Guard.dfy` | rate limiter, circuit breaker, and the guard pipeline over both, shared by any number of workers |
| `Dedupe.dfy` | row identity, deduplication, diff and snapshot |
| `Drift.dfy` | the drift baseline |
| `PageUrl.dfy` | page addressing |
| `Api.dfy` | submitting, cancelling and retrying jobs, with idempotent replay |
| `Text.dfy`, `Numbers.dfy`, `Wrappers.dfy` | numerals, joining, splitting and sorting strings; maximum; `Option` and `Result` |

Every database transaction (`scrapequeue/db/session.py`, lines 38-48) is one step
that commits or rolls back whole, and transactions are serialised. The Lua script
of the bucket and each method of the breaker are atomic. Clocks, what a site
returns, which messages arrive and what the other clients do are parameters or
free choices of the steps, so the results hold for all of them.

## What the code does that one might not expect

- Nothing ever writes PAUSED or FAILED, although `scrapequeue/core/states.py`
  (lines 17 and 21) describes when a job is in those states
  (`CrawlRuns.PoisonPillBound`).
- A result file holds the pages of one chord, and covers the target exactly if that
  chord has no failed or skipped page and nothing had been recorded when it was
  planned (`CrawlResume.ResultCoversTargetIff`). A job resumed after its first page
  has two chords, and can end SUCCEEDED with every page recorded and the whole target
  in its file if the first chord completes, or the rest alone if the second does
  (`ResumedJobSucceedsEitherWay`).
- The callback of another chord that comes when the job is finished replaces its file
  and leaves its row, which then describes a file that is gone (`LaterCallback`). So a
  SUCCEEDED job can have an empty file although its first chord delivered everything
  (`SucceededWithEmptyFile`): the file of a SUCCEEDED job is the whole target in every
  reachable state exactly if the poison-pill threshold allows a single fan-out or the
  target has no rows (`SucceededFileIsWholeIff`).
- If no page was missing when a job was resumed and the empty chord is finalised
  undisturbed, the job ends SUSPECT with an empty file (`ResumedAfterLastPage`).
- A page delivered again overwrites its object and leaves its row count. The two agree
  in every reachable state exactly if the site's answers for the page all have one
  length (`CrawlCounts.CountAgreesIff`).
- A page failure recorded after the callback has read the row no longer changes the
  outcome: the job can end SUCCEEDED with a failure counted
  (`CrawlEnds.LateFailureDoesNotCount`).
- An incremental run that finds nothing new is judged by all its rows and ends
  SUCCEEDED with an empty file (`CrawlEnds.UnchangedRunSucceeds`).
- A callback delivered again right after the job was finalised rewrites the result
  file, and an incremental job's file becomes empty unless it was empty already
  (`CrawlRedelivery.RedeliveredCallback`, `CrawlResume.IncrementalFileIsLost`). If another job of the target settles in
  between, the second diff is against that job's rows and need not be empty.
- The rate bound and the invisibility of key expiry depend on the clocks: they hold
  for all calls exactly if, whenever the key expires between two calls, the clients'
  clocks have gone far enough to refill the bucket; the 60 seconds added to the TTL
  are enough for steps that lag the server's by no more
  (`TokenBucket.RateBoundIffTimely`, `GraceIsTimely`, `SkewedClocksBreakTheBound`).
- A target without a declared row key keeps duplicates, and two equal rows make the
  snapshot's upsert fail (`Dedupe.StoreSucceedsIffDistinct`, `UnkeyedTargetsCanFail`).
- Identities join the key cells with `|`. A row's identity tells it apart from every
  row with other key cells exactly if the key has one column, as in every target
  that is shipped, or none of its key cells has a `|` (`Dedupe.IdentityIsFaithfulIff`;
  without a declared key, all columns count: `UnkeyedIdentityIsFaithfulIff`).
- An empty Idempotency-Key is not looked up but is stored, so using it again is a
  server error rather than a replay (`Api.RepeatedSubmission`).
- The drift baseline settles at different values from above and from below, and a
  rate that is refused once is refused for ever (`Drift.Limit`, `RefusedForEver`).

## Model

| member | source | states |
|---|---|---|
| `CrawlOutput.FanOutRefinesSequentialLoop` | scrapequeue/pipeline/crawl.py:104-188 | for a job fanned out once, with fixed page contents and not incremental: whatever is retried, repeated, lost or reordered, every stored result file is the deduplicated read in ascending page order of the pages whose chord result carries a key, and the job row's size (and row count, if it SUCCEEDED) describe that file |
| `CrawlOutput.SuccessIsTheWholeTarget` | scrapequeue/pipeline/export.py:51-108 | if such a job SUCCEEDED, the file is the deduplication of all pages 1..n read by a simple loop |
| `CrawlOutput.MissingPagesFailed` | scrapequeue/pipeline/crawl.py:147-159 | a page without a key in a finished job's chord has a failure on record |
| `CrawlOutput.EveryFinaliserReadsSequentially` | scrapequeue/pipeline/export.py:27-66 | however often a job is resumed, each finaliser holds the sequential read of its own chord, and a full result file is always one chord's |
| `CrawlOutput.CountsAreThePages` | scrapequeue/pipeline/crawl.py:164-177 | with fixed contents, every recorded page counts exactly its rows, and they are in its object |
| `CrawlOutput.LatePagesAddNothing` | scrapequeue/db/repo.py:84-92 | page tasks that are still running when a job SUCCEEDED change nothing on its record |
| `Export.LoadIsSequential` | scrapequeue/pipeline/export.py:27-36 | loading a chord's results, in any order, gives what one worker would have collected going through the header in order |
| `Export.SortSorts` | scrapequeue/pipeline/export.py:29-29 | sorting by page permutes the results and orders distinct pages strictly |
| `Export.SortedPagesAreHeader` | scrapequeue/pipeline/export.py:29-29 | sorted by page, a complete chord's results line up with its header |
| `Export.KeysAreDistinct` | scrapequeue/pipeline/crawl.py:45-46 | no two pages, jobs or result files share an object key |
| `Export.ObjectStore.LoadRows` | scrapequeue/pipeline/export.py:27-36 | the reading loop returns the rows in page order, or the key of the first missing object |
| `Export.SettleRun` | scrapequeue/pipeline/export.py:69-83 | the second transaction: diff, store, verdict, baseline; a refused upsert leaves all of it unchanged |
| `Export.SettlementIsOfAllRows` | scrapequeue/pipeline/export.py:69-83 | a settlement is suspect iff no page was done or all its rows, not those it emits, are fewer than baseline x ratio x pages; the baseline moves on the same counts, and every row is in the snapshot with its hash |
| `Export.ModesSettleAlike` | scrapequeue/pipeline/export.py:69-83 | the same rows settle incrementally iff they settle in full, with the same verdict, snapshot and baseline |
| `Export.PagesDoneCounts` | scrapequeue/pipeline/export.py:80-80 | the pages of a run are the results not marked failed, skipped ones included |
| `Export.KeyLayout` | scrapequeue/pipeline/crawl.py:45-46 | page 7 of job j is jobs/j/pages/00007.json |
| `Export.KeyWidth` | scrapequeue/pipeline/crawl.py:45-46 | page numbers fill five digits, longer ones are not cut |
| `CrawlInvariant.InvKept` | scrapequeue/pipeline/crawl.py:50-213 | the invariant of the protocol (job life, counters, storage, chords, tasks, finalisers) is kept by every step |
| `CrawlInvariant.CrawlTxKeepsLife` | scrapequeue/pipeline/crawl.py:55-90 | the crawl transaction parks, plans or does nothing, keeping attempts, lost workers, dead letters and counters consistent |
| `CrawlInvariant.PageRecordedKeepsCounters` | scrapequeue/db/repo.py:57-92 | recording a page keeps done pages, row count and page table in agreement, also when it was recorded before |
| `CrawlInvariant.PageFailedKeepsCounters` | scrapequeue/db/repo.py:95-124 | recording a failure keeps the failure counter at least the number of failed pages, and zero only without any |
| `CrawlInvariant.FinishKeeps` | scrapequeue/pipeline/export.py:90-113 | the last transaction of a finaliser keeps the invariant; in particular a job only SUCCEEDs through a chord without failed or skipped pages |
| `CrawlRuns.PoisonPillBound` | scrapequeue/pipeline/crawl.py:72-90 | under unlimited redelivery a job is fanned out at most max(1, threshold) times, RUNNING means attempts = lost workers + 1, and a dead letter exists iff the job is in DEAD_LETTER; PAUSED and FAILED are never reached |
| `CrawlRuns.RedeliveryUntilPoisoned` | scrapequeue/pipeline/crawl.py:76-87 | the bound is reached, and exactly the delivery after it parks the job |
| `CrawlRuns.CountersAreConserved` | scrapequeue/db/repo.py:57-133 | in every reachable state done pages = recorded pages, done + still to fetch = max pages, rows = sum over recorded pages until finalised, failures >= failed pages and zero iff none, 1 to 6 attempts each |
| `CrawlRuns.StorageBeforeCheckpoint` | scrapequeue/pipeline/crawl.py:164-188 | in every reachable state each recorded page and each successful result has its object with rows of that page, no finaliser misses an object, and a job that names a result has it |
| `CrawlRuns.SuccessIsComplete` | scrapequeue/core/states.py:18-18 | a job that SUCCEEDED has recorded every page, however often it was resumed |
| `CrawlRuns.TerminalIsFinal` | scrapequeue/core/states.py:57-62 | over any run, a terminal job keeps its state, error, result key, result bytes, times, attempts and lost workers |
| `CrawlRuns.StepsFollowTheTable` | scrapequeue/db/repo.py:43-54 | every step leaves the state alone or moves it along the transition table |
| `CrawlRuns.LateFinaliserRollsBack` | scrapequeue/pipeline/export.py:101-108 | a finaliser writes the row iff the job is still RUNNING; one that lost the race to a cancel leaves the whole record as it was |
| `CrawlRuns.FinalisedOnce` | scrapequeue/pipeline/export.py:51-113 | over any run the number of finalisers that write the row is one if the job ends by itself and zero otherwise |
| `CrawlRedelivery.RedeliveredCallback` | scrapequeue/pipeline/export.py:52-113 | a callback delivered again right after finalising leaves the row alone; the file stays the same iff the job is not incremental or had nothing to emit |
| `CrawlRedelivery.SettleAgain` | scrapequeue/pipeline/export.py:69-83 | settling the same rows again succeeds and emits nothing if incremental, the same rows otherwise |
| `CrawlResume.ResultCoversTargetIff` | scrapequeue/pipeline/crawl.py:88-111 | in every reachable state, however often the job was resumed, the result file is the output of one chord, which covers the target iff it has no failed or skipped page and planned all of it, that is, nothing was recorded when it was planned; and then the file is the deduplicated whole target |
| `CrawlResume.ChordCoversIff` | scrapequeue/pipeline/export.py:64-64 | a completed chord covers the target iff it is clean and nothing was recorded when it was planned, and its plan is full iff the latter |
| `CrawlResume.SucceededFileIsWholeIff` | scrapequeue/pipeline/crawl.py:74-111 | for a target that can be stored and answers its pages: in every reachable SUCCEEDED state the file is the whole target iff the threshold is at most 1 or the target has no rows |
| `CrawlResume.SucceededWithEmptyFile` | scrapequeue/pipeline/export.py:52-108 | a reachable SUCCEEDED state, for any number of pages, whose clean first chord planned everything and whose row describes it, with an empty file |
| `CrawlResume.LaterCallback` | scrapequeue/pipeline/export.py:52-113 | a callback of any chord that finds the job finished leaves its record and replaces its file, which stays the same iff it held those rows already |
| `CrawlResume.PlanIsTheRest` | scrapequeue/pipeline/crawl.py:91-91 | a delivery plans exactly the pages that are not recorded |
| `CrawlResume.ResumedJobSucceedsEitherWay` | scrapequeue/pipeline/crawl.py:72-111 | reachable states of a two-page job resumed after page 1, SUCCEEDED with both pages recorded: the file is pages 1 and 2 if the first chord completes, page 2 alone if the second does |
| `CrawlResume.ResumedAfterLastPage` | scrapequeue/pipeline/crawl.py:93-96 | from any state of a RUNNING job with every page recorded, the empty chord of a redelivery, finalised undisturbed, ends the job SUSPECT with an empty file |
| `CrawlResume.ResumedAfterLastPageIsReached` | scrapequeue/pipeline/crawl.py:76-96 | some run of every job that may be fanned out twice ends so |
| `CrawlResume.IncrementalFileIsLost` | scrapequeue/pipeline/export.py:52-113 | reachable states of an incremental job, the first of its target: all rows in the file, and none after its callback came again |
| `CrawlPaths.WholeChordGets` | scrapequeue/pipeline/crawl.py:98-188 | every job whose pages the site answers can have all of them recorded and its chord complete |
| `CrawlCounts.CountAgreesIff` | scrapequeue/pipeline/crawl.py:164-177 | recorded count and stored object of a page agree in every reachable state iff the site's answers for it all have one length |
| `CrawlCounts.CountsAgreeIff` | scrapequeue/db/repo.py:69-92 | all counts of a job agree so iff that holds for each of its pages |
| `CrawlCounts.DuplicateAddsNothing` | scrapequeue/pipeline/crawl.py:169-188 | a page result marked duplicate left the record as it was; any other added one page and its rows |
| `CrawlRetries.TransientIsRetried` | scrapequeue/pipeline/crawl.py:115-158 | a transient failure of message (p, r), r < 5, leaves the message (p, r + 1) and nothing else |
| `CrawlRetries.FailureIsRecorded` | scrapequeue/pipeline/crawl.py:146-157 | a permanent failure, a soft time limit, or a transient failure from the fifth retry on is recorded with r + 1 attempts, its text and its kind; the page task returns it unless it ran out of time |
| `CrawlRetries.SixAttemptsAreReached` | scrapequeue/pipeline/crawl.py:115-205 | every job has a reachable state in which any one of its pages has failed transiently six times: the messages of five retries, a failed result, and 6 attempts on record |
| `CrawlRetries.RetriesNeedTransients` | scrapequeue/pipeline/crawl.py:115-158 | over any run, a message (p, r) is at most the fifth retry and takes r transient failures of p in its chord |
| `CrawlRetries.GivingUpNeedsSix` | scrapequeue/pipeline/crawl.py:154-157 | over any run, a page task gives up on a transient failure only after at least six of them in its chord |
| `CrawlEnds.FinaliserEnds` | scrapequeue/pipeline/export.py:51-113 | an undisturbed finaliser of a RUNNING job ends it SUSPECT iff its rows are below the floor, else PARTIAL iff a page failed, else SUCCEEDED, with size, count, error, time and file as emitted |
| `CrawlEnds.UnchangedRunSucceeds` | scrapequeue/pipeline/export.py:69-100 | an incremental run whose rows are all in the snapshot with their hashes is judged by those rows, and ends SUCCEEDED with an empty file if they are enough and no page failed |
| `CrawlEnds.UnchangedRunIsReached` | scrapequeue/pipeline/export.py:51-113 | such a run exists for every incremental job of such a target |
| `CrawlEnds.LateFailureDoesNotCount` | scrapequeue/pipeline/export.py:52-100 | a failure recorded after the callback has read the row does not make the job PARTIAL |
| `CrawlEnds.StartedOnce` | scrapequeue/db/repo.py:47-48 | over any run, the time at which a job started stays |
| `CrawlEnds.CancelledJobRests` | scrapequeue/pipeline/crawl.py:136-139 | over any run, whatever is still delivered, a cancelled job with no task at work fetches, records and stores nothing |
| `CrawlEnds.ClosedJobWritesNoResult` | scrapequeue/pipeline/export.py:52-57 | over any run, the callbacks of a cancelled or parked job write no result file and settle nothing |
| `CrawlPaths.FinaliserGets` | scrapequeue/pipeline/export.py:51-138 | an undisturbed finaliser is a run of the protocol's steps |
| `CrawlRedelivery.FinaliserAlone` | scrapequeue/pipeline/export.py:51-138 | the five steps of an undisturbed finaliser leave exactly the settled rows, the outcome and the shared state |
| `Deployment.EveryJobRunsTheProtocol` | scrapequeue/pipeline/crawl.py:45-213 | with any number of jobs over one store and shared targets, every job is always in a state that its own protocol can reach |
| `Deployment.BystanderSees` | scrapequeue/storage/s3.py:41-46 | another job's step is, for this job, one foreign store, one foreign settlement, or nothing |
| `Deployment.SharedSnapshotIsHistory` | scrapequeue/pipeline/export.py:69-78 | however the finalisers of a keyed target's jobs interleave, its snapshot is the fold of the runs in the order they settled |
| `Deployment.IncrementalEmitsNewsOnly` | scrapequeue/pipeline/dedupe.py:66-87 | an incremental job that settles emits exactly its rows that are new or changed against all runs any job of the target settled before |
| `Tasks.Worker.FetchPage` | scrapequeue/pipeline/crawl.py:125-188 | the page task: skipped if cancelled, object before record, retried, failed or raised by the kind of error |
| `Tasks.Worker.RecordFailure` | scrapequeue/pipeline/crawl.py:191-205 | a failure is recorded with retries + 1 attempts, the sixth of which is the last (`CrawlRetries.SixAttemptsAreReached`) |
| `Tasks.Worker.FinaliseJob` | scrapequeue/pipeline/export.py:51-138 | the three transactions, the upload and the outcome, with every early end; all rows are judged, whatever is emitted (`Export.SettlementIsOfAllRows`) |
| `Tasks.TaskIsRun` | scrapequeue/pipeline/crawl.py:125-188 | an undisturbed page task is a run of the protocol's steps |
| `Tasks.FinaliserIsRun` | scrapequeue/pipeline/export.py:51-138 | so is an undisturbed finaliser, with every early end |
| `Repo.Database.Transition` | scrapequeue/db/repo.py:43-54 | moves a job along the table, stamps its times, truncates its error; otherwise changes nothing |
| `Repo.Database.RecordPage` | scrapequeue/db/repo.py:57-92 | inserts a page once and counts it only then |
| `Repo.Database.RecordFailedPage` | scrapequeue/db/repo.py:95-124 | upserts the failure, keeping the first error type, and always counts |
| `Repo.Database.ParkDeadLetter` | scrapequeue/db/repo.py:136-141 | adds a dead letter with truncated texts and its payload |
| `Repo.Database.BumpLostWorker` | scrapequeue/db/repo.py:144-153 | increments and returns the lost-worker count |
| `Repo.Database.CrawlJob` | scrapequeue/pipeline/crawl.py:55-91 | the crawl transaction, statement by statement |
| `Repo.Database.PlanPages` | scrapequeue/queue/checkpoint.py:19-21 | lists the pages of 1..n that are not completed |
| `Repo.Database.CancelJob` | scrapequeue/api/routes/jobs.py:155-161 | cancels unless terminal |
| `Repo.Database.Park` | scrapequeue/queue/deadletter.py:24-32 | adds the record and moves the job, or rolls both back |
| `Repo.Database.FinishJob` | scrapequeue/pipeline/export.py:101-108 | fills in the result and moves the job, or rolls both back |
| `Repo.MoveStamps` | scrapequeue/db/repo.py:43-54 | a move stamps the first start and every end, and replaces the error, cut to 4000 characters, if it brings one |
| `Repo.FailureIsUpserted` | scrapequeue/db/repo.py:95-124 | failing twice leaves one row with the first kind and the last attempts and text, and counts twice |
| `Repo.PlanningCounts` | scrapequeue/pipeline/crawl.py:76-91 | planning counts one attempt, one lost worker iff the job was RUNNING, and sets the total |
| `Repo.PoisonIsParked` | scrapequeue/pipeline/crawl.py:79-87 | a poison pill leaves its error, its end and a letter with the number of redeliveries |
| `Repo.CancelEnds` | scrapequeue/api/routes/jobs.py:155-161 | exactly the jobs that have not ended can be cancelled, which changes state, error and end |
| `Repo.ParkEnds` | scrapequeue/queue/deadletter.py:24-32 | exactly the jobs that are RUNNING or parked can be parked; each time adds one letter, cut to its columns |
| `Repo.PlanIsMissingPages` | scrapequeue/queue/checkpoint.py:19-21 | a plan is exactly the missing pages in ascending order |
| `Repo.PlanConservation` | scrapequeue/queue/checkpoint.py:24-26 | done and remaining pages add up to max pages |
| `States.TerminalIsFinal` | scrapequeue/core/states.py:57-62 | no transition leaves a terminal state |
| `States.Successors` | scrapequeue/core/states.py:40-63 | which states can follow PENDING, PAUSED and RUNNING |
| `TokenBucket.TokenBuckets.Consume` | scrapequeue/queue/ratelimit.py:23-53 | the Lua script: decision, stored tokens, time stamp and TTL; other buckets untouched |
| `TokenBucket.TokenBuckets.Draw` | scrapequeue/queue/ratelimit.py:68-81 | consume with the default capacity, a second of tokens and never less than one (`TokenBucket.DefaultCapacity`); other buckets untouched |
| `TokenBucket.TokenBuckets.WaitForSlot` | scrapequeue/queue/ratelimit.py:83-96 | under any interference the sleep never exceeds the timeout and it raises only at the timeout; uncontended, one token or anything up to the rate takes at most one sleep, the least that suffices and at most requested / rate, and none at a new bucket; other buckets untouched |
| `TokenBucket.DefaultCapacity` | scrapequeue/queue/ratelimit.py:76-76 | a bucket holds the rate, or one token if that is more |
| `TokenBucket.FirstWait` | scrapequeue/queue/ratelimit.py:40-48 | a refused request waits at most requested / rate; at a new bucket one token, or anything up to the rate, is granted at once |
| `TokenBucket.BurstOnNewBucket` | scrapequeue/queue/ratelimit.py:38-48 | of n one-token calls at one moment on a new bucket, exactly min(n, floor(max(rate, 1))) are granted |
| `TokenBucket.GrantTakesOneToken` | scrapequeue/queue/ratelimit.py:40-50 | a granted one-token call leaves exactly one whole token less than it found |
| `TokenBucket.RetryAfterIsLeast` | scrapequeue/queue/ratelimit.py:46-48 | an undisturbed call succeeds exactly from retry_after on, and never if it asks for more than the capacity |
| `TokenBucket.SleepMakesProgress` | scrapequeue/queue/ratelimit.py:88-96 | an undisturbed sleep ends in success or at the timeout, and an oversized request uses up its rounds |
| `TokenBucket.CallStaysInBounds` | scrapequeue/queue/ratelimit.py:38-48 | stored tokens stay within 0..capacity |
| `TokenBucket.Conservation` | scrapequeue/queue/ratelimit.py:38-50 | over any block of calls, granted + left + spilled by the cap = there before + rate x forward clock steps |
| `TokenBucket.RateBound` | scrapequeue/queue/ratelimit.py:33-51 | the script with its EXPIRE: any timely block of calls from any entry is granted at most capacity + rate x forward clock steps, which is capacity + rate x window if no clock goes back |
| `TokenBucket.RateBoundIffTimely` | scrapequeue/queue/ratelimit.py:33-51 | every block of a sequence of moments is bounded so, from any entry and for any requests, iff the sequence is timely: a gap in which the key expires is one in which the client clocks bring a capacity |
| `TokenBucket.ExpiryInvisible` | scrapequeue/queue/ratelimit.py:33-51 | in a timely block the expiring bucket answers as one that never expires, without any order on the clocks |
| `TokenBucket.ExpiryInvisibleIffTimely` | scrapequeue/queue/ratelimit.py:33-51 | expiry is invisible in every block of a sequence of moments iff the sequence is timely |
| `TokenBucket.GraceIsTimely` | scrapequeue/queue/ratelimit.py:51-51 | client steps at most 60 seconds behind the server's are timely, for every rate and capacity |
| `TokenBucket.TtlInSeconds` | scrapequeue/queue/ratelimit.py:51-51 | a bucket is kept for the least whole seconds in which it fills up, and 60 more |
| `TokenBucket.SkewedClocksBreakTheBound` | scrapequeue/queue/ratelimit.py:33-51 | two calls past that grace that are granted twice their allowance |
| `TokenBucket.RateBoundWithSkewedClocks` | scrapequeue/queue/ratelimit.py:33-51 | whatever the clocks do, each expiry costs at most one bucketful more |
| `Circuit.CircuitBreaker.State` | scrapequeue/queue/circuit.py:55-64 | the answer and the probe claim, as a function of the live keys; other domains untouched |
| `Circuit.CircuitBreaker.AssertClosed` | scrapequeue/queue/circuit.py:66-71 | raises iff the answer is OPEN |
| `Circuit.CircuitBreaker.RecordSuccess` | scrapequeue/queue/circuit.py:73-76 | forgets everything about the domain |
| `Circuit.CircuitBreaker.RecordFailure` | scrapequeue/queue/circuit.py:78-86 | counts, extends, and opens at the threshold |
| `Circuit.OpenIffStreak` | scrapequeue/queue/circuit.py:55-86 | open iff the failure streak, read off the history alone, has reached the threshold |
| `Circuit.KeysAgreeWithStreak` | scrapequeue/queue/circuit.py:78-86 | the counter is the streak's length, and an open key dies together with it |
| `Circuit.FailedProbeReopens` | scrapequeue/queue/circuit.py:78-86 | a failure while open always reopens for a full period |
| `Circuit.FailureOpensIff` | scrapequeue/queue/circuit.py:78-86 | a failure answers OPEN iff it makes the streak, read off the history, as long as the threshold |
| `Circuit.ProbesNeverExceedOpenings` | scrapequeue/queue/circuit.py:55-86 | half-open grants never exceed the failures that returned OPEN |
| `Circuit.OpeningBetweenProbes` | scrapequeue/queue/circuit.py:60-64 | between two grants the circuit was opened again |
| `Circuit.ProbeIff` | scrapequeue/queue/circuit.py:55-64 | which checks are granted the probe and which are refused, read off the history alone: the streak is long enough, and the window of the last grant since the last success is over |
| `Guard.Fetcher.FetchPage` | scrapequeue/workers/fetch.py:78-109 | exactly which guard ends the call; a fetch takes exactly one whole token at the fetcher's rate, and alone waits for exactly what is missing of it; a forbidden URL is neither fetched nor charged, an open circuit is not charged, and only a fetch that was made is recorded |
| `Guard.FetchRateIsBounded` | scrapequeue/workers/fetch.py:86-96 | in any stretch of any run by any number of workers, the fetches that start are at most max(rate, 1) + rate x time |
| `Guard.OpenCircuitFetches` | scrapequeue/workers/fetch.py:86-96 | a fetch that starts while the circuit is open passed its check while it was not, or holds a probe grant |
| `Guard.ProbeFetchesNeverExceedOpenings` | scrapequeue/workers/fetch.py:86-100 | fetches made as probes never exceed the failures that opened the circuit |
| `Guard.RunDrivesBreaker` | scrapequeue/workers/fetch.py:86-100 | a run of the workers drives the breaker through exactly its history of events |
| `Dedupe.Dedupe` | scrapequeue/pipeline/dedupe.py:39-52 | the loop keeps the first row of each identity, and kept + duplicates = input length |
| `Dedupe.KeyCells` | scrapequeue/workers/extract.py:110-112 | a key cell that is missing or counts as false contributes the empty text, any other its own, in key order |
| `Dedupe.DedupeKeepsFirsts` | scrapequeue/pipeline/dedupe.py:39-52 | exactly the rows that share their identity with no earlier row, in order, all identities kept once |
| `Dedupe.SnapshotTable.DiffAgainstSnapshot` | scrapequeue/pipeline/dedupe.py:66-87 | added and changed rows in row order, removed keys sorted |
| `Dedupe.SnapshotTable.Store` | scrapequeue/pipeline/dedupe.py:90-110 | upserts all rows, or fails and changes nothing |
| `Dedupe.StoreSucceedsIffDistinct` | scrapequeue/pipeline/dedupe.py:104-110 | the upsert succeeds iff no two rows share an identity |
| `Dedupe.KeyedTargetsAlwaysStore` | scrapequeue/pipeline/dedupe.py:39-52 | after deduplication a keyed target's upsert never fails |
| `Dedupe.UnkeyedTargetsCanFail` | scrapequeue/pipeline/dedupe.py:40-41 | two equal rows of a target without a key make it fail |
| `Dedupe.SnapshotIsHistory` | scrapequeue/pipeline/dedupe.py:90-110 | after any runs the snapshot maps exactly the identities ever seen, each to its hash in the latest run that has it |
| `Dedupe.DiffIsAgainstHistory` | scrapequeue/pipeline/dedupe.py:66-87 | added iff never seen, changed iff the hash differs from the last appearance, removed iff seen once and absent now |
| `Dedupe.EmittedInOrder` | scrapequeue/pipeline/dedupe.py:61-87 | a diff emits the added rows and then the changed ones, each in row order |
| `Dedupe.UnchangedDiffIsEmpty` | scrapequeue/pipeline/dedupe.py:78-87 | rows that the snapshot has with their hashes are not emitted |
| `Dedupe.DiffIsSufficientPatch` | scrapequeue/pipeline/dedupe.py:61-110 | upserting only added and changed rows gives the snapshot that upserting all rows gives |
| `Dedupe.DiffAfterStoreIsEmpty` | scrapequeue/pipeline/dedupe.py:66-110 | diffing the same rows again yields nothing |
| `Dedupe.IdentityIsFaithfulIff` | scrapequeue/workers/extract.py:110-112 | a row's identity tells it apart from all rows with other key cells iff the key has one column or none of the row's key cells has the separator |
| `Dedupe.UnkeyedIdentityIsFaithfulIff` | scrapequeue/workers/extract.py:110-112 | without a declared key, among the rows with the row's columns: iff there is one column or no cell of the row has the separator |
| `Dedupe.IdentitiesCanCollide` | scrapequeue/workers/extract.py:110-112 | two rows with different key cells and one identity |
| `Drift.DriftBaselines.Check` | scrapequeue/pipeline/drift.py:29-44 | the verdict against the stored baseline |
| `Drift.DriftBaselines.UpdateBaseline` | scrapequeue/pipeline/drift.py:47-59 | the truncating moving average of one target; others untouched |
| `Drift.FirstBaseline` | scrapequeue/pipeline/drift.py:33-55 | the first run with a page is accepted, and its whole rows per page become the baseline |
| `Drift.AcceptedRunBlends` | scrapequeue/pipeline/drift.py:57-59 | an accepted run leaves the whole part of 0.7 x the baseline + 0.3 x its rows per page, and counts one sample more |
| `Drift.SeriesIsAfterRuns` | scrapequeue/pipeline/export.py:80-83 | a series of runs at one rate leaves what `Drift.AfterRuns` says, which is what the results on convergence are about |
| `Drift.FixedPoints` | scrapequeue/pipeline/drift.py:57-58 | rate o leaves exactly the baselines b with o - 10/3 < b <= o where they are |
| `Drift.Converges` | scrapequeue/pipeline/drift.py:47-59 | a series at one rate that starts accepted stays accepted and reaches its fixed point within its distance, for good |
| `Drift.BlendApproaches` | scrapequeue/pipeline/drift.py:57-58 | every other accepted run comes strictly nearer |
| `Drift.RefusedForEver` | scrapequeue/pipeline/export.py:80-83 | a refused rate stays refused and leaves the baseline unchanged however often it comes |
| `Drift.OneRunDropIsBounded` | scrapequeue/pipeline/drift.py:36-58 | exactly which runs are suspect; a suspect run changes nothing, an accepted one never takes the baseline below floor((0.7 + 0.3 x ratio) x b) |
| `PageUrl.RepagingIsStable` | scrapequeue/pipeline/pageurl.py:31-49 | paging an already paged URL gives the URL that paging the base gives, parameter order included |
| `PageUrl.QueryLayers` | scrapequeue/pipeline/pageurl.py:41-49 | the page parameter, start + (page - 1) x step, wins over the base URL, which wins over the spec |
| `PageUrl.PagesCountFromOne` | scrapequeue/pipeline/pageurl.py:23-28 | page 1 is asked for with the start value, each next page with one step more, and exactly the pages below 1 have no URL |
| `PageUrl.ParameterOrder` | scrapequeue/pipeline/pageurl.py:40-49 | parameters keep their order: those of the spec, those that the base URL adds, the page |
| `PageUrl.BaseComesFirst` | scrapequeue/pipeline/pageurl.py:31-32 | a base URL that is not empty is paged, otherwise the start URL |
| `PageUrl.AddressableTargets` | scrapequeue/pipeline/pageurl.py:33-39 | exactly the targets that are paged by a named parameter have URLs |
| `PageUrl.PagesAreAddressable` | scrapequeue/pipeline/pageurl.py:23-49 | distinct pages have distinct URLs iff the step is not zero |
| `Text.Pad5IsInjective` | scrapequeue/pipeline/crawl.py:46-46 | zero-padded page numbers of any size are distinct |
| `Text.SplitUndoesJoin` | scrapequeue/workers/extract.py:112-112 | joined cells without the separator can be told apart again |
| `Text.LeIsLexicographic` | scrapequeue/workers/extract.py:111-111 | the order in which the columns of a row without a key are joined is that of the first different character, beginnings first |
| `Api.JobsApi.SubmitJob` | scrapequeue/api/routes/jobs.py:60-131 | the checks in order, replay, conflict, insert, and the message that goes with a new row only |
| `Api.JobsApi.CancelJob` | scrapequeue/api/routes/jobs.py:147-163 | 404 for strangers, 409 if terminal, else the task is revoked and the job CANCELLED with its error and time |
| `Api.JobsApi.RetryJob` | scrapequeue/api/routes/jobs.py:191-228 | a terminal job is redriven as a new row without an Idempotency-Key; the old row stays |
| `Api.SubmissionIsIdempotent` | scrapequeue/api/routes/jobs.py:85-131 | over any interleaving of requests: one row per owner and key, all accepted replies to a key name it, its stored fingerprint is that of every body accepted, and at most one reply created it |
| `Api.RepeatedSubmission` | scrapequeue/api/routes/jobs.py:88-100 | a repeated key is replayed iff the fingerprint is the stored one and refused otherwise, the table unchanged; it is a server error iff the key is empty |
| `Api.ChecksComeFirst` | scrapequeue/api/routes/jobs.py:70-86 | unknown target, blocked host and full queue refuse in this order, before any replay |
| `Api.SubmissionAddsRow` | scrapequeue/api/routes/jobs.py:102-122 | with a free key or none, one PENDING row is added that holds what was asked for |
| `Api.StrangersChangeNothing` | scrapequeue/api/routes/jobs.py:153-155 | a cancel or retry by somebody who owns no such job is answered 404 and changes nothing |
| `Api.OwnerCancels` | scrapequeue/api/routes/jobs.py:147-163 | the owner or an admin cancels exactly the jobs that have not ended, changing no other row |
| `Api.OwnerRetries` | scrapequeue/api/routes/jobs.py:191-228 | the owner or an admin retries exactly the jobs that have ended: a new row asks for the same and names the old one, which stays |
| `Api.ServedConsistently` | scrapequeue/db/tables.py:89-96 | unique ids and keys, stored fingerprints and the replies' backing rows are kept by every request |

## Left out

- Liveness: the code does not give it. A message can be consumed before its submitting transaction commits, and a soft time limit or an uncaught error fails the chord.
- Concurrent transactions: each session is serialised, so row-level lost updates and isolation anomalies between two transactions do not occur in the model; only submission is split into lookup and insert.
- CrawlOutput.FanOutRefinesSequentialLoop: stated for one fan-out, because a file covers only the plan of one chord; `CrawlResume.ResultCoversTargetIff` is the form for any number of fan-outs.
- CrawlOutput.FanOutRefinesSequentialLoop: stated for jobs that are not incremental; what an incremental job emits is `Deployment.IncrementalEmitsNewsOnly`.
- Celery internals: backoff, acknowledgements, result storage and what a revoke does to a running task are left out; any message may be delivered at any time, and a chord's callback gets one returned result per page, fixed once and delivered any number of times.
- A job without a row ("missing"): job rows are never deleted here.
- Reading a chord's pages is one step; in the code other steps can fall between two objects, which shows only if a site's answers change.
- Tasks.Worker.FetchPage: its `Crash` outcome is the worker's death inside the fetcher; death between two writes is a step of `Crawl`, not of the method.
- The reason text of a drift verdict carries rates and is shortened to its fixed part.
- The `job_id` column of a snapshot row, and the URL, traceback and time columns of page rows.
- Fingerprints, row hashes and the size of an encoded result are arbitrary functions; SHA-256, `json.dumps` and the csv module are not modelled.
- Queries are encoded and decoded by a pair of functions of which the second undoes the first on dictionaries (section 3.4 of RFC 3986); splitting a URL into parts is taken as given.
- Floating point: tokens and rates are exact reals.
- Circuit: each method is atomic and TTLs are exact whole seconds; a probe key that dies earlier than the open key through rounding is not modelled.
- TokenBucket: rate and capacity are fixed over a block of calls and the rate is positive, as in every target; the script divides by it.
- Dedupe.IdentityIsFaithfulIff: the column names of a key are distinct; a key that names a column twice is not covered.
- The 128-character limits on snapshot keys and Idempotency-Keys are assumed to be met.
- `page_body`, HTML and JSON extraction, result writers, authentication, API rate limits, webhooks, metrics, logging and schedules.
