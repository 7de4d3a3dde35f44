/** What every step of the crawl protocol keeps, and what follows for every run. */
module CrawlInvariant {
  import opened Wrappers
  import opened Numbers
  import opened States
  import opened Repo
  import opened Export
  import opened Crawl
  import Dedupe

  /** The rows of the recorded pages among 1..n. */
  function RecordedRows(pages: map<nat, nat>, n: nat): nat {
    if n == 0 then 0 else RecordedRows(pages, n - 1) + if n in pages then pages[n] else 0
  }

  const FINISHED: set<JobState> := {SUCCEEDED, PARTIAL, SUSPECT}

  // ----- the invariant, part by part -----

  /** The life of the job row; `plans` is the number of times it was planned. */
  ghost predicate LifeOk(cfg: Config, r: Record, plans: nat) {
    var job := r.job;
    && job.maxPages == cfg.maxPages
    && job.state != PAUSED && job.state != FAILED
    && job.attempts == plans <= Max(1, cfg.threshold)
    && (job.state == PENDING ==> plans == 0 && job.lostWorkers == 0)
    && (job.state == RUNNING ==> plans == job.lostWorkers + 1)
    && (job.state in {PENDING, RUNNING, SUCCEEDED} <==> job.error.None?)
    && (job.state in TERMINAL_STATES <==> job.finishedAt.Some?)
    && (job.state in FINISHED <==> job.resultKey.Some?)
    && (job.resultKey.Some? ==> job.resultKey == Some(cfg.resultKey) && plans >= 1)
    && (r.dead != [] <==> job.state == DEAD_LETTER)
  }

  /** The page counters against the page tables. */
  ghost predicate CountersOk(cfg: Config, r: Record) {
    && InRange(r.pages.Keys, cfg.maxPages)
    && InRange(r.failed.Keys, cfg.maxPages)
    && r.job.pagesDone == |r.pages|
    && r.job.pagesFailed >= |r.failed|
    && (r.job.pagesFailed == 0 <==> r.failed == map[])
    && (r.job.resultKey.None? ==> r.job.rows == RecordedRows(r.pages, cfg.maxPages))
    && (forall p :: p in r.failed ==> 1 <= r.failed[p].attempts <= MAX_RETRIES + 1)
  }

  ghost predicate HasPageBlob(cfg: Config, blobs: Blobs, page: nat) {
    var key := cfg.pageKey(page);
    key in blobs && blobs[key].PageBlob? && cfg.mayYield(page, blobs[key].rows)
  }

  ghost predicate HasResult(cfg: Config, blobs: Blobs) {
    cfg.resultKey in blobs && blobs[cfg.resultKey].ResultBlob?
  }

  /** Some answer of the site has this many rows. */
  ghost predicate Counts(cfg: Config, page: nat, rows: nat) {
    exists answer :: cfg.mayYield(page, answer) && |answer| == rows
  }

  /** Storage comes before the checkpoint: a recorded page has its object, which holds
      rows of that page, its row count is that of an answer of the site, and a job that
      names a result has it. */
  ghost predicate StorageOk(cfg: Config, r: Record, blobs: Blobs) {
    && (forall p :: p in r.pages ==> HasPageBlob(cfg, blobs, p) && Counts(cfg, p, r.pages[p]))
    && (r.job.resultKey.Some? ==> HasResult(cfg, blobs))
  }

  /** A returned result tells the truth, now and from now on. */
  ghost predicate ResultOk(cfg: Config, s: State, pages: seq<nat>, result: PageResult) {
    && result.page in pages
    && match result
       case Skipped(_) => s.record.job.state == CANCELLED
       case Failed(page) => page in s.record.failed
       case Done(page, _, key, _) =>
         key == cfg.pageKey(page) && page in s.record.pages && HasPageBlob(cfg, s.blobs, page)
  }

  ghost predicate PlanOk(cfg: Config, s: State, plan: Plan) {
    && plan.pages == PagesToFetch(plan.done, cfg.maxPages) && plan.done <= s.record.pages.Keys
    && Ascending(plan.pages)
    && (forall p :: p in plan.pages ==> 1 <= p <= cfg.maxPages)
    && (forall p :: 1 <= p <= cfg.maxPages ==> p in plan.pages || p in s.record.pages)
    && (!plan.dispatched ==> plan.messages == {} && plan.returned == {} && plan.body.None?)
    && (forall m :: m in plan.messages ==> m.0 in plan.pages && m.1 <= MAX_RETRIES)
    && (forall r :: r in plan.returned ==> ResultOk(cfg, s, plan.pages, r))
    && (plan.body.Some? ==> Answers(plan.body.value, plan.pages)
                            && forall r :: r in plan.body.value ==> ResultOk(cfg, s, plan.pages, r))
  }

  ghost predicate PlansOk(cfg: Config, s: State) {
    && (forall k :: 0 <= k < |s.plans| ==> PlanOk(cfg, s, s.plans[k]))
    && (s.plans == [] ==> s.record.pages == map[] && s.record.failed == map[])
    && (s.plans != [] ==> s.plans[0].done == {})
  }

  ghost predicate WorkerOk(cfg: Config, s: State, t: Worker) {
    && t.plan < |s.plans| && s.plans[t.plan].dispatched
    && match t
       case Fetching(k, page, retries) => page in s.plans[k].pages && retries <= MAX_RETRIES
       case Fetched(k, page, rows) => page in s.plans[k].pages && cfg.mayYield(page, rows)
       case Stored(k, page, rows) =>
         page in s.plans[k].pages && HasPageBlob(cfg, s.blobs, page) && cfg.mayYield(page, rows)
       case Failing(k, page, retries, _, _, _) => page in s.plans[k].pages && retries <= MAX_RETRIES
       case Returning(k, result) => ResultOk(cfg, s, s.plans[k].pages, result)
  }

  ghost predicate WorkersOk(cfg: Config, s: State) {
    forall w :: w in s.workers ==> WorkerOk(cfg, s, s.workers[w])
  }

  /** A finaliser works on its chord's callback arguments, and saw the failures in them. */
  ghost predicate FinaliserOk(cfg: Config, s: State, t: Finaliser) {
    && t.plan < |s.plans| && s.plans[t.plan].body == Some(t.results)
    && (t.pagesFailed == 0 ==> forall r :: r in t.results ==> !r.Failed?)
    && (t.Uploaded? ==> HasResult(cfg, s.blobs))
  }

  ghost predicate FinalisersOk(cfg: Config, s: State) {
    forall f :: f in s.finalisers ==> FinaliserOk(cfg, s, s.finalisers[f])
  }

  /** A job can only have SUCCEEDED through a chord without a failed or skipped page. */
  ghost predicate CleanBody(plan: Plan) {
    plan.body.Some? && forall r :: r in plan.body.value ==> r.Done?
  }

  ghost predicate SuccessOk(s: State) {
    s.record.job.state == SUCCEEDED ==> exists k :: 0 <= k < |s.plans| && CleanBody(s.plans[k])
  }

  /** The row is in order.  Here and further on, a comparison with `true` has the
      verifier treat the predicate as one fact wherever it is passed on. */
  ghost predicate RecordOk(cfg: Config, r: Record, plans: nat) {
    (LifeOk(cfg, r, plans) && CountersOk(cfg, r)) == true
  }

  ghost predicate Parts(cfg: Config, s: State) {
    && RecordOk(cfg, s.record, |s.plans|)
    && StorageOk(cfg, s.record, s.blobs)
    && PlansOk(cfg, s)
    && WorkersOk(cfg, s)
    && FinalisersOk(cfg, s)
    && SuccessOk(s)
  }

  ghost predicate Inv(cfg: Config, s: State) {
    Parts(cfg, s) == true
  }

  // ----- what only grows -----

  ghost predicate BlobsGrow(cfg: Config, blobs: Blobs, blobs': Blobs) {
    && (forall p :: HasPageBlob(cfg, blobs, p) ==> HasPageBlob(cfg, blobs', p))
    && (HasResult(cfg, blobs) ==> HasResult(cfg, blobs'))
  }

  ghost predicate PlansGrow(plans: seq<Plan>, plans': seq<Plan>) {
    && |plans| <= |plans'|
    && (forall k :: 0 <= k < |plans| ==>
          && plans'[k].pages == plans[k].pages && plans'[k].done == plans[k].done
          && (plans[k].dispatched ==> plans'[k].dispatched)
          && (plans[k].body.Some? ==> plans'[k].body == plans[k].body))
  }

  /** The facts that no step takes back. */
  ghost predicate Grows(cfg: Config, s: State, s': State) {
    && s.record.pages.Keys <= s'.record.pages.Keys
    && s.record.failed.Keys <= s'.record.failed.Keys
    && (s.record.job.state == CANCELLED ==> s'.record.job.state == CANCELLED)
    && BlobsGrow(cfg, s.blobs, s'.blobs)
    && PlansGrow(s.plans, s'.plans)
  }

  lemma PageStoreGrows(cfg: Config, blobs: Blobs, page: nat, rows: seq<Row>)
    requires DistinctKeys(cfg) && cfg.mayYield(page, rows)
    ensures var blobs' := blobs[cfg.pageKey(page) := PageBlob(rows)];
            BlobsGrow(cfg, blobs, blobs') && HasPageBlob(cfg, blobs', page)
  {
  }

  lemma ResultStoreGrows(cfg: Config, blobs: Blobs, rows: seq<Row>)
    requires DistinctKeys(cfg)
    ensures var blobs' := blobs[cfg.resultKey := ResultBlob(rows)];
            BlobsGrow(cfg, blobs, blobs') && HasResult(cfg, blobs')
  {
  }

  lemma ForeignStoreGrows(cfg: Config, blobs: Blobs, key: string, blob: Blob)
    requires !OwnKey(cfg, key)
    ensures BlobsGrow(cfg, blobs, blobs[key := blob])
  {
  }

  lemma ResultStaysOk(cfg: Config, s: State, s': State, pages: seq<nat>, r: PageResult)
    requires Grows(cfg, s, s') && ResultOk(cfg, s, pages, r)
    ensures ResultOk(cfg, s', pages, r)
  {
  }

  lemma PlanStaysOk(cfg: Config, s: State, s': State, plan: Plan)
    requires Grows(cfg, s, s') && PlanOk(cfg, s, plan)
    ensures PlanOk(cfg, s', plan)
  {
    forall r | r in plan.returned || (plan.body.Some? && r in plan.body.value)
      ensures ResultOk(cfg, s', plan.pages, r)
    {
      ResultStaysOk(cfg, s, s', plan.pages, r);
    }
  }

  lemma WorkerStaysOk(cfg: Config, s: State, s': State, t: Worker)
    requires Grows(cfg, s, s') && WorkerOk(cfg, s, t)
    ensures WorkerOk(cfg, s', t)
  {
    if t.Returning? {
      ResultStaysOk(cfg, s, s', s.plans[t.plan].pages, t.result);
    }
  }

  /** Whatever was in order stays in order when the state only grows. */
  lemma Stay(cfg: Config, s: State, s': State)
    requires Inv(cfg, s) && Grows(cfg, s, s')
    ensures forall k :: 0 <= k < |s.plans| ==> PlanOk(cfg, s', s.plans[k])
    ensures forall w :: w in s.workers ==> WorkerOk(cfg, s', s.workers[w])
    ensures forall f :: f in s.finalisers ==> FinaliserOk(cfg, s', s.finalisers[f])
    ensures s.record.job.state == SUCCEEDED ==> exists k :: 0 <= k < |s'.plans| && CleanBody(s'.plans[k])
  {
    forall k | 0 <= k < |s.plans|
      ensures PlanOk(cfg, s', s.plans[k])
    {
      PlanStaysOk(cfg, s, s', s.plans[k]);
    }
    forall w | w in s.workers
      ensures WorkerOk(cfg, s', s.workers[w])
    {
      WorkerStaysOk(cfg, s, s', s.workers[w]);
    }
    forall f | f in s.finalisers
      ensures FinaliserOk(cfg, s', s.finalisers[f])
    {
      assert FinaliserOk(cfg, s, s.finalisers[f]);
    }
    if s.record.job.state == SUCCEEDED {
      var k :| 0 <= k < |s.plans| && CleanBody(s.plans[k]);
      assert CleanBody(s'.plans[k]);
    }
  }

  // ----- changing one component at a time -----

  lemma WorkersChange(cfg: Config, s: State, workers: map<nat, Worker>)
    requires Inv(cfg, s)
    requires forall w :: w in workers ==> (w in s.workers && workers[w] == s.workers[w]) || WorkerOk(cfg, s, workers[w])
    ensures Inv(cfg, s.(workers := workers))
  {
    Stay(cfg, s, s.(workers := workers));
    forall w | w in workers
      ensures WorkerOk(cfg, s.(workers := workers), workers[w])
    {
      if w in s.workers && workers[w] == s.workers[w] {
      } else {
        WorkerStaysOk(cfg, s, s.(workers := workers), workers[w]);
      }
    }
  }

  lemma WorkerChanges(cfg: Config, s: State, w: nat, t: Worker)
    requires Inv(cfg, s) && WorkerOk(cfg, s, t)
    ensures Inv(cfg, s.(workers := s.workers[w := t]))
  {
    WorkersChange(cfg, s, s.workers[w := t]);
  }

  lemma WorkerLeaves(cfg: Config, s: State, w: nat)
    requires Inv(cfg, s)
    ensures Inv(cfg, s.(workers := s.workers - {w}))
  {
    WorkersChange(cfg, s, s.workers - {w});
  }

  lemma FinalisersChange(cfg: Config, s: State, finalisers: map<nat, Finaliser>, shared: Shared)
    requires Inv(cfg, s)
    requires forall f :: f in finalisers ==> FinaliserOk(cfg, s, finalisers[f])
    ensures Inv(cfg, s.(finalisers := finalisers, shared := shared))
  {
    var s' := s.(finalisers := finalisers, shared := shared);
    Stay(cfg, s, s');
    assert PlansOk(cfg, s');
    assert WorkersOk(cfg, s') && FinalisersOk(cfg, s');
  }

  lemma FinaliserChanges(cfg: Config, s: State, f: nat, t: Finaliser, shared: Shared)
    requires Inv(cfg, s) && FinaliserOk(cfg, s, t)
    ensures Inv(cfg, s.(finalisers := s.finalisers[f := t], shared := shared))
  {
    FinalisersChange(cfg, s, s.finalisers[f := t], shared);
  }

  lemma FinaliserLeaves(cfg: Config, s: State, f: nat, shared: Shared)
    requires Inv(cfg, s)
    ensures Inv(cfg, s.(finalisers := s.finalisers - {f}, shared := shared))
  {
    FinalisersChange(cfg, s, s.finalisers - {f}, shared);
  }

  lemma PlanChanges(cfg: Config, s: State, k: nat, plan: Plan)
    requires Inv(cfg, s) && k < |s.plans| && PlanOk(cfg, s, plan)
    requires plan.pages == s.plans[k].pages && plan.done == s.plans[k].done
    requires s.plans[k].dispatched ==> plan.dispatched
    requires s.plans[k].body.Some? ==> plan.body == s.plans[k].body
    ensures Inv(cfg, s.(plans := s.plans[k := plan]))
  {
    var s' := s.(plans := s.plans[k := plan]);
    PlanStaysOk(cfg, s, s', plan);
    Stay(cfg, s, s');
    assert PlansOk(cfg, s');
    assert WorkersOk(cfg, s') && FinalisersOk(cfg, s');
  }

  lemma BlobsChange(cfg: Config, s: State, blobs: Blobs)
    requires Inv(cfg, s)
    requires BlobsGrow(cfg, s.blobs, blobs)
    ensures Inv(cfg, s.(blobs := blobs))
  {
    Stay(cfg, s, s.(blobs := blobs));
  }

  ghost predicate RecordGrows(r: Record, r': Record) {
    && r.pages.Keys <= r'.pages.Keys
    && r.failed.Keys <= r'.failed.Keys
    && (r.job.state == CANCELLED ==> r'.job.state == CANCELLED)
  }

  lemma RecordChanges(cfg: Config, s: State, record: Record)
    requires Inv(cfg, s) && RecordGrows(s.record, record)
    requires RecordOk(cfg, record, |s.plans|) && StorageOk(cfg, record, s.blobs)
    requires s.plans == [] ==> record.pages == map[] && record.failed == map[]
    requires record.job.state == SUCCEEDED ==> s.record.job.state == SUCCEEDED || SuccessOk(s.(record := record))
    ensures Inv(cfg, s.(record := record))
  {
    Stay(cfg, s, s.(record := record));
  }

  lemma PlanAdded(cfg: Config, s: State, record: Record)
    requires Inv(cfg, s)
    requires RecordOk(cfg, record, |s.plans| + 1) && record.job.state == RUNNING
    requires s.record.job.state in {PENDING, RUNNING}
    requires record == s.record.(job := record.job)
    ensures Inv(cfg, s.(record := record,
                        plans := s.plans + [NewPlan(s.record, PagesToFetch(s.record.pages.Keys, cfg.maxPages))]))
  {
    var s' := s.(record := record,
                 plans := s.plans + [NewPlan(s.record, PagesToFetch(s.record.pages.Keys, cfg.maxPages))]);
    PlansStayOk(cfg, s, s');
    Stay(cfg, s, s');
    assert WorkersOk(cfg, s') && FinalisersOk(cfg, s');
  }

  lemma PlansStayOk(cfg: Config, s: State, s': State)
    requires PlansOk(cfg, s) && Grows(cfg, s, s') && s'.record.pages == s.record.pages
    requires s'.plans == s.plans + [NewPlan(s.record, PagesToFetch(s.record.pages.Keys, cfg.maxPages))]
    ensures PlansOk(cfg, s')
  {
    FreshPlanIsOk(cfg, s);
    forall k | 0 <= k < |s'.plans|
      ensures PlanOk(cfg, s', s'.plans[k])
    {
      PlanStaysOk(cfg, s, s', s'.plans[k]);
    }
    if s.plans == [] {
      assert s.record.pages.Keys == {};
    }
  }

  lemma FreshPlanIsOk(cfg: Config, s: State)
    ensures PlanOk(cfg, s, NewPlan(s.record, PagesToFetch(s.record.pages.Keys, cfg.maxPages)))
  {
    PlanIsMissingPages(s.record.pages.Keys, cfg.maxPages);
  }

  // ----- the record under each transaction -----

  lemma CrawlTxKeepsLife(cfg: Config, r: Record, plans: nat, now: int)
    requires RecordOk(cfg, r, plans)
    ensures match CrawlTx(r, cfg.threshold, now)
            case Finished => r.job.state in TERMINAL_STATES
            case Poisoned(r') =>
              && RecordOk(cfg, r', plans) && r'.job.state == DEAD_LETTER
              && r'.pages == r.pages && r'.failed == r.failed && r.job.state == RUNNING
            case Planned(r', pending) =>
              && RecordOk(cfg, r', plans + 1) && r'.job.state == RUNNING
              && r' == r.(job := r'.job) && r.job.state in {PENDING, RUNNING}
              && pending == PagesToFetch(r.pages.Keys, cfg.maxPages)
  {
  }

  lemma FinishTxKeepsLife(cfg: Config, r: Record, plans: nat, o: Outcome, now: int)
    requires RecordOk(cfg, r, plans) && plans >= 1
    requires o.state in FINISHED && o.key == cfg.resultKey
    requires o.state == SUCCEEDED <==> o.error.None?
    ensures var r' := Committed(r, FinishTx(r, o, now));
            && RecordOk(cfg, r', plans)
            && r'.pages == r.pages && r'.failed == r.failed
            && (r' != r ==> r.job.state == RUNNING && r'.job.state == o.state)
  {
  }

  lemma CancelTxKeepsLife(cfg: Config, r: Record, plans: nat, now: int)
    requires RecordOk(cfg, r, plans)
    ensures var r' := Committed(r, CancelTx(r, now));
            && RecordOk(cfg, r', plans)
            && r'.pages == r.pages && r'.failed == r.failed
            && (r'.job.state == r.job.state || r'.job.state == CANCELLED)
  {
  }

  lemma ParkTxKeepsLife(cfg: Config, r: Record, plans: nat, letter: DeadLetter, now: int)
    requires RecordOk(cfg, r, plans)
    ensures var r' := Committed(r, ParkTx(r, letter, now));
            && RecordOk(cfg, r', plans)
            && r'.pages == r.pages && r'.failed == r.failed
            && (r'.job.state == r.job.state || (r.job.state == RUNNING && r'.job.state == DEAD_LETTER))
  {
  }

  lemma {:induction false} RecordedRowsStep(pages: map<nat, nat>, page: nat, rows: nat, n: nat)
    requires page !in pages
    ensures RecordedRows(pages[page := rows], n) == RecordedRows(pages, n) + if 1 <= page <= n then rows else 0
  {
    if n > 0 {
      RecordedRowsStep(pages, page, rows, n - 1);
    }
  }

  lemma NewPageCounts(cfg: Config, r: Record, page: nat, rows: nat)
    requires CountersOk(cfg, r) && 1 <= page <= cfg.maxPages && page !in r.pages
    ensures CountersOk(cfg, PageRecorded(r, page, rows))
    ensures PageRecorded(r, page, rows).pages.Keys == r.pages.Keys + {page}
  {
    var pages := r.pages[page := rows];
    assert pages.Keys == r.pages.Keys + {page};
    RecordedRowsStep(r.pages, page, rows, cfg.maxPages);
  }

  lemma PageRecordedKeepsCounters(cfg: Config, r: Record, plans: nat, page: nat, rows: nat)
    requires RecordOk(cfg, r, plans) && 1 <= page <= cfg.maxPages
    ensures var r' := PageRecorded(r, page, rows);
            && RecordOk(cfg, r', plans) && RecordGrows(r, r')
            && r'.pages.Keys == r.pages.Keys + {page} && r'.job.state == r.job.state
  {
    if page in r.pages {
      assert PageRecorded(r, page, rows) == r;
    } else {
      NewPageCounts(cfg, r, page, rows);
      assert LifeOk(cfg, PageRecorded(r, page, rows), plans);
    }
  }

  lemma PageFailedKeepsCounters(cfg: Config, r: Record, plans: nat, page: nat, attempts: nat, errorType: string,
                                error: string)
    requires RecordOk(cfg, r, plans) && 1 <= page <= cfg.maxPages && 1 <= attempts <= MAX_RETRIES + 1
    ensures FailureAdded(cfg, r, PageFailed(r, page, attempts, errorType, error), plans, page)
  {
    var r' := PageFailed(r, page, attempts, errorType, error);
    assert page in r'.failed;
  }

  // ----- each step keeps the invariant -----

  lemma DeliverCrawlKeeps(cfg: Config, s: State, now: int)
    requires Inv(cfg, s)
    ensures Inv(cfg, DeliverCrawlStep(cfg, s, now))
  {
    CrawlTxKeepsLife(cfg, s.record, |s.plans|, now);
    match CrawlTx(s.record, cfg.threshold, now)
    case Finished =>
    case Poisoned(record) => RecordChanges(cfg, s, record);
    case Planned(record, pending) => PlanAdded(cfg, s, record);
  }

  lemma DispatchKeeps(cfg: Config, s: State, k: nat)
    requires Inv(cfg, s)
    ensures Inv(cfg, DispatchStep(s, k))
  {
    if k < |s.plans| && !s.plans[k].dispatched {
      var plan := s.plans[k];
      assert PlanOk(cfg, s, plan);
      PlanChanges(cfg, s, k, plan.(dispatched := true, messages := set p | p in plan.pages :: (p, 0)));
    }
  }

  lemma StartPageKeeps(cfg: Config, s: State, w: nat, k: nat, page: nat, retries: nat)
    requires Inv(cfg, s)
    ensures Inv(cfg, StartPageStep(s, w, k, page, retries))
  {
    if w !in s.workers && k < |s.plans| && (page, retries) in s.plans[k].messages {
      assert PlanOk(cfg, s, s.plans[k]);
      WorkerChanges(cfg, s, w, if s.record.job.state == CANCELLED then Returning(k, Skipped(page))
        else Fetching(k, page, retries));
    }
  }

  lemma FetchingBecomes(cfg: Config, s: State, w: nat, t: Worker)
    requires Inv(cfg, s) && w in s.workers && s.workers[w].Fetching?
    requires t.plan == s.workers[w].plan
    requires t.Fetched? || (t.Failing? && t.retries == s.workers[w].retries)
    requires t.page == s.workers[w].page && (t.Fetched? ==> cfg.mayYield(t.page, t.rows))
    ensures Inv(cfg, s.(workers := s.workers[w := t]))
  {
    assert WorkerOk(cfg, s, s.workers[w]);
    WorkerChanges(cfg, s, w, t);
  }

  lemma FetchKeeps(cfg: Config, s: State, w: nat, outcome: FetchOutcome)
    requires Inv(cfg, s)
    ensures Inv(cfg, FetchStep(cfg, s, w, outcome))
  {
    if w in s.workers && s.workers[w].Fetching? {
      if outcome.Transient? && s.workers[w].retries < MAX_RETRIES {
        RetryKeeps(cfg, s, w);
      } else if outcome.Crash? {
        WorkerLeaves(cfg, s, w);
      } else if outcome.Rows? {
        FetchedKeeps(cfg, s, w, outcome);
      } else {
        FailedFetchKeeps(cfg, s, w, outcome);
      }
    }
  }

  lemma FetchedKeeps(cfg: Config, s: State, w: nat, outcome: FetchOutcome)
    requires Inv(cfg, s) && w in s.workers && s.workers[w].Fetching? && outcome.Rows?
    ensures Inv(cfg, FetchStep(cfg, s, w, outcome))
  {
    var t := s.workers[w];
    if cfg.mayYield(t.page, outcome.rows) {
      FetchingBecomes(cfg, s, w, Fetched(t.plan, t.page, outcome.rows));
    }
  }

  lemma FailedFetchKeeps(cfg: Config, s: State, w: nat, outcome: FetchOutcome)
    requires Inv(cfg, s) && w in s.workers && s.workers[w].Fetching?
    requires outcome.Permanent? || outcome.SoftTimeLimit? || (outcome.Transient? && s.workers[w].retries >= MAX_RETRIES)
    ensures Inv(cfg, FetchStep(cfg, s, w, outcome))
  {
    FetchingBecomes(cfg, s, w, FetchStep(cfg, s, w, outcome).workers[w]);
  }

  lemma RetryKeeps(cfg: Config, s: State, w: nat)
    requires Inv(cfg, s) && w in s.workers && s.workers[w].Fetching? && s.workers[w].retries < MAX_RETRIES
    ensures WorkerOk(cfg, s, s.workers[w])
    ensures var t := s.workers[w];
            var plan := s.plans[t.plan];
            Inv(cfg, s.(workers := s.workers - {w},
                        plans := s.plans[t.plan := plan.(messages := plan.messages + {(t.page, Attempts(t.retries))})]))
  {
    var t := s.workers[w];
    assert WorkerOk(cfg, s, t);
    var plan := s.plans[t.plan];
    assert PlanOk(cfg, s, plan);
    var next := plan.(messages := plan.messages + {(t.page, Attempts(t.retries))});
    PlanChanges(cfg, s, t.plan, next);
    WorkerLeaves(cfg, s.(plans := s.plans[t.plan := next]), w);
  }

  lemma PutPageKeeps(cfg: Config, s: State, w: nat)
    requires DistinctKeys(cfg) && Inv(cfg, s)
    ensures Inv(cfg, PutPageStep(cfg, s, w))
  {
    if w in s.workers && s.workers[w].Fetched? {
      var t := s.workers[w];
      assert WorkerOk(cfg, s, t);
      var mid := s.(blobs := s.blobs[cfg.pageKey(t.page) := PageBlob(t.rows)]);
      PageStoreGrows(cfg, s.blobs, t.page, t.rows);
      BlobsChange(cfg, s, mid.blobs);
      WorkerChanges(cfg, mid, w, Stored(t.plan, t.page, t.rows));
    }
  }

  lemma CommitPageKeeps(cfg: Config, s: State, w: nat)
    requires Inv(cfg, s)
    ensures Inv(cfg, CommitPageStep(cfg, s, w))
  {
    if w in s.workers && s.workers[w].Stored? {
      var t := s.workers[w];
      assert WorkerOk(cfg, s, t) && PlanOk(cfg, s, s.plans[t.plan]);
      var record := PageRecorded(s.record, t.page, |t.rows|);
      PageRecordedKeepsCounters(cfg, s.record, |s.plans|, t.page, |t.rows|);
      assert Counts(cfg, t.page, |t.rows|);
      RecordChanges(cfg, s, record);
      var result := Done(t.page, |t.rows|, cfg.pageKey(t.page), t.page in s.record.pages);
      WorkerChanges(cfg, s.(record := record), w, Returning(t.plan, result));
    }
  }

  /** `r'` is `r` with one more failure of the page on it, in order. */
  ghost predicate FailureAdded(cfg: Config, r: Record, r': Record, plans: nat, page: nat) {
    (&& RecordOk(cfg, r', plans) && RecordGrows(r, r')
    && page in r'.failed && r'.pages == r.pages && r'.job.state == r.job.state) == true
  }

  lemma FailureCommits(cfg: Config, s: State, w: nat, record: Record)
    requires Inv(cfg, s) && w in s.workers && s.workers[w].Failing?
    requires FailureAdded(cfg, s.record, record, |s.plans|, s.workers[w].page)
    ensures Inv(cfg, s.(record := record,
            workers := s.workers[w := Returning(s.workers[w].plan, Failed(s.workers[w].page))]))
    ensures Inv(cfg, s.(record := record, workers := s.workers - {w}))
  {
    var t := s.workers[w];
    assert WorkerOk(cfg, s, t) && PlanOk(cfg, s, s.plans[t.plan]);
    RecordChanges(cfg, s, record);
    WorkerChanges(cfg, s.(record := record), w, Returning(t.plan, Failed(t.page)));
    WorkerLeaves(cfg, s.(record := record), w);
  }

  lemma FailingIsInRange(cfg: Config, s: State, w: nat)
    requires Inv(cfg, s) && w in s.workers && s.workers[w].Failing?
    ensures 1 <= s.workers[w].page <= cfg.maxPages && s.workers[w].retries <= MAX_RETRIES
  {
    assert WorkerOk(cfg, s, s.workers[w]) && PlanOk(cfg, s, s.plans[s.workers[w].plan]);
  }

  lemma CommitFailureKeeps(cfg: Config, s: State, w: nat)
    requires Inv(cfg, s)
    ensures Inv(cfg, CommitFailureStep(s, w))
  {
    if w in s.workers && s.workers[w].Failing? {
      var t := s.workers[w];
      FailingIsInRange(cfg, s, w);
      PageFailedKeepsCounters(cfg, s.record, |s.plans|, t.page, Attempts(t.retries), t.errorType, t.error);
      FailureCommits(cfg, s, w, PageFailed(s.record, t.page, Attempts(t.retries), t.errorType, t.error));
    }
  }

  lemma ReturnKeeps(cfg: Config, s: State, w: nat)
    requires Inv(cfg, s)
    ensures Inv(cfg, ReturnStep(s, w))
  {
    if w in s.workers && s.workers[w].Returning? {
      var t := s.workers[w];
      assert WorkerOk(cfg, s, t) && PlanOk(cfg, s, s.plans[t.plan]);
      var mid := s.(plans := s.plans[t.plan := s.plans[t.plan].(returned := s.plans[t.plan].returned + {t.result})]);
      PlanChanges(cfg, s, t.plan, mid.plans[t.plan]);
      WorkerLeaves(cfg, mid, w);
    }
  }

  lemma CompleteKeeps(cfg: Config, s: State, k: nat, results: seq<PageResult>)
    requires Inv(cfg, s)
    ensures Inv(cfg, CompleteStep(s, k, results))
  {
    if CompleteStep(s, k, results) != s {
      assert PlanOk(cfg, s, s.plans[k]);
      PlanChanges(cfg, s, k, s.plans[k].(body := Some(results)));
    }
  }

  lemma AssembleKeeps(cfg: Config, s: State, f: nat, k: nat)
    requires Inv(cfg, s)
    ensures Inv(cfg, AssembleStep(s, f, k))
  {
    if AssembleStep(s, f, k) != s {
      assert PlanOk(cfg, s, s.plans[k]);
      FinaliserChanges(cfg, s, f, Begun(k, s.plans[k].body.value, s.record.job.pagesFailed), s.shared);
    }
  }

  lemma LoadKeeps(cfg: Config, s: State, f: nat)
    requires Inv(cfg, s)
    ensures Inv(cfg, LoadStep(cfg, s, f))
  {
    if f in s.finalisers && s.finalisers[f].Begun? {
      var t := s.finalisers[f];
      assert FinaliserOk(cfg, s, t);
      match LoadRows(t.results, s.blobs)
      case Err(_) => FinaliserLeaves(cfg, s, f, s.shared);
      case Ok(rows) =>
        FinaliserChanges(cfg, s, f, Loaded(t.plan, t.results, t.pagesFailed, Dedupe.Deduped(rows, cfg.target.rowKey)),
          s.shared);
    }
  }

  lemma SettleKeeps(cfg: Config, s: State, f: nat)
    requires Inv(cfg, s)
    ensures Inv(cfg, SettleStep(cfg, s, f))
  {
    if f in s.finalisers && s.finalisers[f].Loaded? {
      var t := s.finalisers[f];
      assert FinaliserOk(cfg, s, t);
      match SettleTx(cfg.target, s.shared, t.rows, PagesDone(t.results), cfg.incremental)
      case Err(_) => FinaliserLeaves(cfg, s, f, s.shared);
      case Ok(done) =>
        FinaliserChanges(cfg, s, f, Settled(t.plan, t.results, t.pagesFailed, t.rows, done.emitted, done.suspect),
          done.shared);
    }
  }

  lemma UploadKeeps(cfg: Config, s: State, f: nat)
    requires DistinctKeys(cfg) && Inv(cfg, s)
    ensures Inv(cfg, UploadStep(cfg, s, f))
  {
    if f in s.finalisers && s.finalisers[f].Settled? {
      var t := s.finalisers[f];
      assert FinaliserOk(cfg, s, t);
      var mid := s.(blobs := s.blobs[cfg.resultKey := ResultBlob(t.emitted)]);
      ResultStoreGrows(cfg, s.blobs, t.emitted);
      BlobsChange(cfg, s, mid.blobs);
      FinaliserChanges(cfg, mid, f, UploadStep(cfg, s, f).finalisers[f], s.shared);
    }
  }

  /** While the job is RUNNING nobody has returned a skipped page. */
  lemma NothingSkipped(cfg: Config, s: State, t: Finaliser)
    requires Inv(cfg, s) && FinaliserOk(cfg, s, t) && s.record.job.state == RUNNING
    ensures forall r :: r in t.results ==> !r.Skipped?
    ensures t.pagesFailed == 0 ==> CleanBody(s.plans[t.plan])
  {
    assert PlanOk(cfg, s, s.plans[t.plan]);
    forall r | r in t.results
      ensures !r.Skipped?
    {
      assert ResultOk(cfg, s, s.plans[t.plan].pages, r);
    }
  }

  lemma FinishedRecordKeeps(cfg: Config, s: State, t: Finaliser, now: int)
    requires Inv(cfg, s) && FinaliserOk(cfg, s, t) && t.Uploaded?
    ensures var o := OutcomeOf(cfg.resultKey, t.emitted, t.suspect, t.pagesFailed, t.bytes);
            Inv(cfg, s.(record := Committed(s.record, FinishTx(s.record, o, now))))
  {
    var o := OutcomeOf(cfg.resultKey, t.emitted, t.suspect, t.pagesFailed, t.bytes);
    var record := Committed(s.record, FinishTx(s.record, o, now));
    FinishTxKeepsLife(cfg, s.record, |s.plans|, o, now);
    if record != s.record {
      NothingSkipped(cfg, s, t);
      RecordChanges(cfg, s, record);
    }
  }

  lemma FinishKeeps(cfg: Config, s: State, f: nat, now: int)
    requires Inv(cfg, s)
    ensures Inv(cfg, FinishStep(cfg, s, f, now))
  {
    if f in s.finalisers && s.finalisers[f].Uploaded? {
      var t := s.finalisers[f];
      assert FinaliserOk(cfg, s, t);
      var o := OutcomeOf(cfg.resultKey, t.emitted, t.suspect, t.pagesFailed, t.bytes);
      FinishedRecordKeeps(cfg, s, t, now);
      FinaliserLeaves(cfg, s.(record := Committed(s.record, FinishTx(s.record, o, now))), f, s.shared);
    }
  }

  lemma CancelKeeps(cfg: Config, s: State, now: int)
    requires Inv(cfg, s)
    ensures Inv(cfg, s.(record := Committed(s.record, CancelTx(s.record, now))))
  {
    CancelTxKeepsLife(cfg, s.record, |s.plans|, now);
    RecordChanges(cfg, s, Committed(s.record, CancelTx(s.record, now)));
  }

  lemma ParkKeeps(cfg: Config, s: State, letter: DeadLetter, now: int)
    requires Inv(cfg, s)
    ensures Inv(cfg, s.(record := Committed(s.record, ParkTx(s.record, letter, now))))
  {
    ParkTxKeepsLife(cfg, s.record, |s.plans|, letter, now);
    RecordChanges(cfg, s, Committed(s.record, ParkTx(s.record, letter, now)));
  }

  lemma OthersKeep(cfg: Config, s: State, key: string, blob: Blob)
    requires Inv(cfg, s) && !OwnKey(cfg, key)
    ensures Inv(cfg, s.(blobs := s.blobs[key := blob]))
  {
    ForeignStoreGrows(cfg, s.blobs, key, blob);
    BlobsChange(cfg, s, s.blobs[key := blob]);
  }

  predicate OfPageTask(step: Step) {
    step.StartPage? || step.Fetch? || step.PutPage? || step.CommitPage? || step.CommitFailure? || step.Return?
      || step.Die?
  }

  predicate OfFinaliser(step: Step) {
    step.Assemble? || step.Load? || step.Settle? || step.Upload? || step.Finish? || step.Abandon?
  }

  lemma PageTaskKeeps(cfg: Config, s: State, step: Step, s': State)
    requires DistinctKeys(cfg) && Inv(cfg, s) && Leads(cfg, s, step, s') && OfPageTask(step)
    ensures Inv(cfg, s')
  {
    match step
    case StartPage(w, k, page, retries) => StartPageKeeps(cfg, s, w, k, page, retries);
    case Fetch(w, outcome) => FetchKeeps(cfg, s, w, outcome);
    case PutPage(w) => PutPageKeeps(cfg, s, w);
    case CommitPage(w) => CommitPageKeeps(cfg, s, w);
    case CommitFailure(w) => CommitFailureKeeps(cfg, s, w);
    case Return(w) => ReturnKeeps(cfg, s, w);
    case Die(w) => WorkerLeaves(cfg, s, w);
  }

  lemma FinaliserKeeps(cfg: Config, s: State, step: Step, s': State)
    requires DistinctKeys(cfg) && Inv(cfg, s) && Leads(cfg, s, step, s') && OfFinaliser(step)
    ensures Inv(cfg, s')
  {
    match step
    case Assemble(f, k) => AssembleKeeps(cfg, s, f, k);
    case Load(f) => LoadKeeps(cfg, s, f);
    case Settle(f) => SettleKeeps(cfg, s, f);
    case Upload(f) => UploadKeeps(cfg, s, f);
    case Finish(f, now) => FinishKeeps(cfg, s, f, now);
    case Abandon(f) => FinaliserLeaves(cfg, s, f, s.shared);
  }

  lemma OtherStepKeeps(cfg: Config, s: State, step: Step, s': State)
    requires Inv(cfg, s) && Leads(cfg, s, step, s') && !OfPageTask(step) && !OfFinaliser(step)
    ensures Inv(cfg, s')
  {
    match step
    case DeliverCrawl(now) => DeliverCrawlKeeps(cfg, s, now);
    case Dispatch(k) => DispatchKeeps(cfg, s, k);
    case Complete(k, results) => CompleteKeeps(cfg, s, k, results);
    case Cancel(now) => CancelKeeps(cfg, s, now);
    case Park(letter, now) => ParkKeeps(cfg, s, letter, now);
    case OthersStore(key, blob) => if !OwnKey(cfg, key) { OthersKeep(cfg, s, key, blob); }
    case OthersSettle(shared) => FinalisersChange(cfg, s, s.finalisers, shared);
  }

  /** The invariant is inductive: no step of the protocol, in whatever order, breaks it. */
  lemma InvKept(cfg: Config, s: State, step: Step)
    requires DistinctKeys(cfg) && Inv(cfg, s)
    ensures Inv(cfg, Apply(cfg, s, step))
  {
    var s' := Apply(cfg, s, step);
    ApplyLeads(cfg, s, step);
    if OfPageTask(step) {
      PageTaskKeeps(cfg, s, step, s');
    } else if OfFinaliser(step) {
      FinaliserKeeps(cfg, s, step, s');
    } else {
      OtherStepKeeps(cfg, s, step, s');
    }
  }
}
