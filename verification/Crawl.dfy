/** The crawl protocol of one job as a state machine (scrapequeue/pipeline/crawl.py,
    scrapequeue/pipeline/export.py, cancel and park).  A database transaction, an
    object upload and the dispatch of messages are one step each; between any two of
    them a worker may die, a message may be delivered again, the caller may cancel
    and other jobs may act. */
module Crawl {
  import opened Wrappers
  import opened States
  import opened Repo
  import opened Export
  import Dedupe

  const MAX_RETRIES := 5

  /** The job's parameters and surroundings: the object keys it writes, which rows
      the site may return for a page, and the length of an encoded result. */
  datatype Config = Config(
    maxPages: nat, threshold: int, incremental: bool, target: Target,
    pageKey: nat -> string, resultKey: string, mayYield: (nat, seq<Row>) -> bool, size: seq<Row> -> nat)

  ghost predicate OwnKey(cfg: Config, key: string) {
    key == cfg.resultKey || exists page :: key == cfg.pageKey(page)
  }

  ghost predicate DistinctKeys(cfg: Config) {
    && (forall p, q :: cfg.pageKey(p) == cfg.pageKey(q) ==> p == q)
    && (forall p :: cfg.pageKey(p) != cfg.resultKey)
  }

  /** The keys that the job `id` writes with result format `format`. */
  ghost predicate KeysOf(cfg: Config, id: string, format: string) {
    cfg.resultKey == ResultKey(id, format) && forall p :: cfg.pageKey(p) == PageKey(id, p)
  }

  lemma JobKeysAreDistinct(cfg: Config, id: string, format: string)
    requires '/' !in id && KeysOf(cfg, id, format)
    ensures DistinctKeys(cfg)
  {
    forall p, q
      ensures cfg.pageKey(p) == cfg.pageKey(q) ==> p == q
      ensures cfg.pageKey(p) != cfg.resultKey
    {
      KeysAreDistinct(id, id, p, q, format, format);
    }
  }

  /** One committed crawl transaction that planned pages: its chord, the pages that
      were recorded when it was planned, the page messages (page, retries) that can be
      delivered, the results its tasks have returned, and the arguments of its callback
      once the chord is complete. */
  datatype Plan = Plan(
    pages: seq<nat>, done: set<nat>, dispatched: bool, messages: set<(nat, nat)>, returned: set<PageResult>,
    body: Option<seq<PageResult>>)

  /** A page task between two of its steps. */
  datatype Worker =
    | Fetching(plan: nat, page: nat, retries: nat)
    | Fetched(plan: nat, page: nat, rows: seq<Row>)
    | Stored(plan: nat, page: nat, rows: seq<Row>)
    | Failing(plan: nat, page: nat, retries: nat, errorType: string, error: string, reports: bool)
    | Returning(plan: nat, result: PageResult)

  /** An assemble_job between two steps of finalise_job. */
  datatype Finaliser =
    | Begun(plan: nat, results: seq<PageResult>, pagesFailed: nat)
    | Loaded(plan: nat, results: seq<PageResult>, pagesFailed: nat, rows: seq<Row>)
    | Settled(plan: nat, results: seq<PageResult>, pagesFailed: nat, rows: seq<Row>, emitted: seq<Row>, suspect: bool)
    | Uploaded(plan: nat, results: seq<PageResult>, pagesFailed: nat, rows: seq<Row>, emitted: seq<Row>, suspect: bool,
               bytes: nat)

  datatype State = State(
    record: Record, plans: seq<Plan>, workers: map<nat, Worker>, finalisers: map<nat, Finaliser>,
    blobs: Blobs, shared: Shared)

  datatype FetchOutcome =
    | Rows(rows: seq<Row>)
    | Permanent(error: string)
    | Transient(errorType: string, error: string)
    | SoftTimeLimit(error: string)
    | Crash

  datatype Step =
    | DeliverCrawl(now: int)
    | Dispatch(plan: nat)
    | StartPage(w: nat, plan: nat, page: nat, retries: nat)
    | Fetch(w: nat, outcome: FetchOutcome)
    | PutPage(w: nat)
    | CommitPage(w: nat)
    | CommitFailure(w: nat)
    | Return(w: nat)
    | Die(w: nat)
    | Complete(plan: nat, results: seq<PageResult>)
    | Assemble(f: nat, plan: nat)
    | Load(f: nat)
    | Settle(f: nat)
    | Upload(f: nat)
    | Finish(f: nat, now: int)
    | Abandon(f: nat)
    | Cancel(now: int)
    | Park(letter: DeadLetter, now: int)
    | OthersStore(key: string, blob: Blob)
    | OthersSettle(shared: Shared)

  ghost function Init(cfg: Config, blobs: Blobs, shared: Shared): State {
    State(Created(cfg.maxPages), [], map[], map[], blobs, shared)
  }

  /** Deliveries of a page message so far, counting the one in hand. */
  function Attempts(retries: nat): nat { retries + 1 }

  // ----- crawl_job -----

  function NewPlan(r: Record, pending: seq<nat>): Plan {
    Plan(pending, r.pages.Keys, false, {}, {}, None)
  }

  ghost function DeliverCrawlStep(cfg: Config, s: State, now: int): State {
    match CrawlTx(s.record, cfg.threshold, now)
    case Finished => s
    case Poisoned(record) => s.(record := record)
    case Planned(record, pending) =>
      s.(record := record, plans := s.plans + [NewPlan(s.record, pending)])
  }

  /** The chord is sent: every pending page becomes a message. */
  ghost function DispatchStep(s: State, k: nat): State {
    if k >= |s.plans| || s.plans[k].dispatched then s
    else
      var plan := s.plans[k];
      s.(plans := s.plans[k := plan.(dispatched := true, messages := set p | p in plan.pages :: (p, 0))])
  }

  // ----- fetch_page -----

  ghost function StartPageStep(s: State, w: nat, k: nat, page: nat, retries: nat): State {
    if w in s.workers || k >= |s.plans| || (page, retries) !in s.plans[k].messages then s
    else if s.record.job.state == CANCELLED then s.(workers := s.workers[w := Returning(k, Skipped(page))])
    else s.(workers := s.workers[w := Fetching(k, page, retries)])
  }

  ghost function FetchStep(cfg: Config, s: State, w: nat, outcome: FetchOutcome): State {
    if w !in s.workers || !s.workers[w].Fetching? then s
    else
      var t := s.workers[w];
      match outcome
      case Rows(rows) =>
        if cfg.mayYield(t.page, rows) then s.(workers := s.workers[w := Fetched(t.plan, t.page, rows)]) else s
      case Permanent(error) =>
        s.(workers := s.workers[w := Failing(t.plan, t.page, t.retries, "PermanentFetchError", error, true)])
      case SoftTimeLimit(error) =>
        s.(workers := s.workers[w := Failing(t.plan, t.page, t.retries, "SoftTimeLimitExceeded", error, false)])
      case Transient(errorType, error) =>
        if t.retries >= MAX_RETRIES then
          s.(workers := s.workers[w := Failing(t.plan, t.page, t.retries, errorType, error, true)])
        else if t.plan < |s.plans| then
          var plan := s.plans[t.plan];
          s.(workers := s.workers - {w},
             plans := s.plans[t.plan := plan.(messages := plan.messages + {(t.page, Attempts(t.retries))})])
        else s
      case Crash => s.(workers := s.workers - {w})
  }

  ghost function PutPageStep(cfg: Config, s: State, w: nat): State {
    if w !in s.workers || !s.workers[w].Fetched? then s
    else
      var t := s.workers[w];
      s.(blobs := s.blobs[cfg.pageKey(t.page) := PageBlob(t.rows)],
         workers := s.workers[w := Stored(t.plan, t.page, t.rows)])
  }

  ghost function CommitPageStep(cfg: Config, s: State, w: nat): State {
    if w !in s.workers || !s.workers[w].Stored? then s
    else
      var t := s.workers[w];
      var result := Done(t.page, |t.rows|, cfg.pageKey(t.page), t.page in s.record.pages);
      s.(record := PageRecorded(s.record, t.page, |t.rows|), workers := s.workers[w := Returning(t.plan, result)])
  }

  ghost function CommitFailureStep(s: State, w: nat): State {
    if w !in s.workers || !s.workers[w].Failing? then s
    else
      var t := s.workers[w];
      var record := PageFailed(s.record, t.page, Attempts(t.retries), t.errorType, t.error);
      if t.reports then s.(record := record, workers := s.workers[w := Returning(t.plan, Failed(t.page))])
      else s.(record := record, workers := s.workers - {w})
  }

  ghost function ReturnStep(s: State, w: nat): State {
    if w !in s.workers || !s.workers[w].Returning? || s.workers[w].plan >= |s.plans| then s
    else
      var t := s.workers[w];
      var plan := s.plans[t.plan];
      s.(workers := s.workers - {w},
         plans := s.plans[t.plan := plan.(returned := plan.returned + {t.result})])
  }

  // ----- assemble_job -----

  /** The chord is complete: its callback gets one result per page, once, in any order. */
  ghost function CompleteStep(s: State, k: nat, results: seq<PageResult>): State {
    if k < |s.plans| && s.plans[k].dispatched && s.plans[k].body.None?
       && Answers(results, s.plans[k].pages) && (forall r :: r in results ==> r in s.plans[k].returned)
    then s.(plans := s.plans[k := s.plans[k].(body := Some(results))])
    else s
  }

  /** First transaction of finalise_job; the callback may be delivered any number of times. */
  ghost function AssembleStep(s: State, f: nat, k: nat): State {
    if f in s.finalisers || k >= |s.plans| || s.plans[k].body.None? || s.record.job.state in {CANCELLED, DEAD_LETTER}
    then s
    else s.(finalisers := s.finalisers[f := Begun(k, s.plans[k].body.value, s.record.job.pagesFailed)])
  }

  ghost function LoadStep(cfg: Config, s: State, f: nat): State {
    if f !in s.finalisers || !s.finalisers[f].Begun? then s
    else
      var t := s.finalisers[f];
      match LoadRows(t.results, s.blobs)
      case Err(_) => s.(finalisers := s.finalisers - {f})
      case Ok(rows) =>
        s.(finalisers := s.finalisers[f := Loaded(t.plan, t.results, t.pagesFailed,
                                                  Dedupe.Deduped(rows, cfg.target.rowKey))])
  }

  ghost function SettleStep(cfg: Config, s: State, f: nat): State {
    if f !in s.finalisers || !s.finalisers[f].Loaded? then s
    else
      var t := s.finalisers[f];
      match SettleTx(cfg.target, s.shared, t.rows, PagesDone(t.results), cfg.incremental)
      case Err(_) => s.(finalisers := s.finalisers - {f})
      case Ok(done) =>
        s.(shared := done.shared,
           finalisers := s.finalisers[f := Settled(t.plan, t.results, t.pagesFailed, t.rows, done.emitted,
             done.suspect)])
  }

  ghost function UploadStep(cfg: Config, s: State, f: nat): State {
    if f !in s.finalisers || !s.finalisers[f].Settled? then s
    else
      var t := s.finalisers[f];
      s.(blobs := s.blobs[cfg.resultKey := ResultBlob(t.emitted)],
         finalisers := s.finalisers[f := Uploaded(t.plan, t.results, t.pagesFailed, t.rows, t.emitted, t.suspect,
                                                  cfg.size(t.emitted))])
  }

  ghost function FinishStep(cfg: Config, s: State, f: nat, now: int): State {
    if f !in s.finalisers || !s.finalisers[f].Uploaded? then s
    else
      var t := s.finalisers[f];
      var o := OutcomeOf(cfg.resultKey, t.emitted, t.suspect, t.pagesFailed, t.bytes);
      s.(record := Committed(s.record, FinishTx(s.record, o, now)), finalisers := s.finalisers - {f})
  }

  // ----- runs -----

  /** One step; a step that is not enabled changes nothing.  `Leads` is the same as a
      relation (`LeadsIsGraph`). */
  ghost function Apply(cfg: Config, s: State, step: Step): State {
    match step
    case DeliverCrawl(now) => DeliverCrawlStep(cfg, s, now)
    case Dispatch(k) => DispatchStep(s, k)
    case StartPage(w, k, page, retries) => StartPageStep(s, w, k, page, retries)
    case Fetch(w, outcome) => FetchStep(cfg, s, w, outcome)
    case PutPage(w) => PutPageStep(cfg, s, w)
    case CommitPage(w) => CommitPageStep(cfg, s, w)
    case CommitFailure(w) => CommitFailureStep(s, w)
    case Return(w) => ReturnStep(s, w)
    case Die(w) => s.(workers := s.workers - {w})
    case Complete(k, results) => CompleteStep(s, k, results)
    case Assemble(f, k) => AssembleStep(s, f, k)
    case Load(f) => LoadStep(cfg, s, f)
    case Settle(f) => SettleStep(cfg, s, f)
    case Upload(f) => UploadStep(cfg, s, f)
    case Finish(f, now) => FinishStep(cfg, s, f, now)
    case Abandon(f) => s.(finalisers := s.finalisers - {f})
    case Cancel(now) => s.(record := Committed(s.record, CancelTx(s.record, now)))
    case Park(letter, now) => s.(record := Committed(s.record, ParkTx(s.record, letter, now)))
    case OthersStore(key, blob) => if OwnKey(cfg, key) then s else s.(blobs := s.blobs[key := blob])
    case OthersSettle(shared) => s.(shared := shared)
  }

  /** The graph of `Apply`, which proofs go through case by case. */
  ghost predicate Leads(cfg: Config, s: State, step: Step, s': State) {
    match step
    case DeliverCrawl(now) => s' == DeliverCrawlStep(cfg, s, now)
    case Dispatch(k) => s' == DispatchStep(s, k)
    case StartPage(w, k, page, retries) => s' == StartPageStep(s, w, k, page, retries)
    case Fetch(w, outcome) => s' == FetchStep(cfg, s, w, outcome)
    case PutPage(w) => s' == PutPageStep(cfg, s, w)
    case CommitPage(w) => s' == CommitPageStep(cfg, s, w)
    case CommitFailure(w) => s' == CommitFailureStep(s, w)
    case Return(w) => s' == ReturnStep(s, w)
    case Die(w) => s' == s.(workers := s.workers - {w})
    case Complete(k, results) => s' == CompleteStep(s, k, results)
    case Assemble(f, k) => s' == AssembleStep(s, f, k)
    case Load(f) => s' == LoadStep(cfg, s, f)
    case Settle(f) => s' == SettleStep(cfg, s, f)
    case Upload(f) => s' == UploadStep(cfg, s, f)
    case Finish(f, now) => s' == FinishStep(cfg, s, f, now)
    case Abandon(f) => s' == s.(finalisers := s.finalisers - {f})
    case Cancel(now) => s' == s.(record := Committed(s.record, CancelTx(s.record, now)))
    case Park(letter, now) => s' == s.(record := Committed(s.record, ParkTx(s.record, letter, now)))
    case OthersStore(key, blob) => if OwnKey(cfg, key) then s' == s else s' == s.(blobs := s.blobs[key := blob])
    case OthersSettle(shared) => s' == s.(shared := shared)
  }

  lemma ApplyLeads(cfg: Config, s: State, step: Step)
    ensures Leads(cfg, s, step, Apply(cfg, s, step))
  {
  }

  lemma LeadsIsGraph(cfg: Config, s: State, step: Step, s': State)
    ensures Leads(cfg, s, step, s') <==> s' == Apply(cfg, s, step)
  {
    ApplyLeads(cfg, s, step);
  }

  ghost function Run(cfg: Config, s: State, steps: seq<Step>): State {
    if steps == [] then s
    else Apply(cfg, Run(cfg, s, steps[..|steps| - 1]), steps[|steps| - 1])
  }

  /** A job that was accepted under a fresh id: nothing is stored under its keys. */
  ghost predicate FreshJob(cfg: Config, blobs: Blobs) {
    DistinctKeys(cfg) && forall key :: key in blobs ==> !OwnKey(cfg, key)
  }
}
