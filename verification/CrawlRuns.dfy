/** What the crawl protocol guarantees over every run: any number of redeliveries,
    lost workers, cancels and finalisers, interleaved in any order. */
module CrawlRuns {
  import opened Wrappers
  import opened Numbers
  import opened States
  import opened Repo
  import opened Export
  import opened Crawl
  import opened CrawlInvariant

  /** A state that some run of the protocol reaches after the job was accepted. */
  ghost predicate Reachable(cfg: Config, s: State) {
    exists blobs, shared, steps :: FreshJob(cfg, blobs) && s == Run(cfg, Init(cfg, blobs, shared), steps)
  }

  lemma {:induction false} RunKeepsInv(cfg: Config, s: State, steps: seq<Step>)
    requires DistinctKeys(cfg) && Inv(cfg, s)
    ensures Inv(cfg, Run(cfg, s, steps))
  {
    if steps != [] {
      RunKeepsInv(cfg, s, steps[..|steps| - 1]);
      InvKept(cfg, Run(cfg, s, steps[..|steps| - 1]), steps[|steps| - 1]);
    }
  }

  lemma {:induction false} NoRecordedRows(n: nat)
    ensures RecordedRows(map[], n) == 0
  {
    if n > 0 {
      NoRecordedRows(n - 1);
    }
  }

  lemma InitHolds(cfg: Config, blobs: Blobs, shared: Shared)
    ensures Inv(cfg, Init(cfg, blobs, shared))
  {
    NoRecordedRows(cfg.maxPages);
  }

  lemma ReachableKeepsInv(cfg: Config, s: State)
    requires Reachable(cfg, s)
    ensures DistinctKeys(cfg) && Inv(cfg, s)
  {
    var blobs, shared, steps :| FreshJob(cfg, blobs) && s == Run(cfg, Init(cfg, blobs, shared), steps);
    InitHolds(cfg, blobs, shared);
    RunKeepsInv(cfg, Init(cfg, blobs, shared), steps);
  }

  // ----- the life of a job -----

  /** Under unlimited redelivery: the job is fanned out at most `threshold` times, a
      RUNNING job was planned once more than it lost workers, a dead-letter record
      exists exactly when the job is dead, and nothing ever pauses or fails a job. */
  lemma PoisonPillBound(cfg: Config, s: State)
    requires Reachable(cfg, s)
    ensures s.record.job.attempts == |s.plans| <= Max(1, cfg.threshold)
    ensures s.record.job.state == RUNNING ==> s.record.job.attempts == s.record.job.lostWorkers + 1
    ensures s.record.dead != [] <==> s.record.job.state == DEAD_LETTER
    ensures s.record.job.state !in {PAUSED, FAILED}
  {
    ReachableKeepsInv(cfg, s);
  }

  /** One more delivery of a RUNNING job's crawl message: a lost worker. */
  lemma RedeliveryCounts(cfg: Config, s: State, now: int)
    requires s.record.job.state == RUNNING
    ensures var job, job' := s.record.job, Apply(cfg, s, DeliverCrawl(now)).record.job;
            && job'.lostWorkers == job.lostWorkers + 1
            && (job'.lostWorkers < cfg.threshold ==> job'.state == RUNNING && job'.attempts == job.attempts + 1)
            && (job'.lostWorkers >= cfg.threshold ==> job'.state == DEAD_LETTER && job'.attempts == job.attempts)
  {
  }

  function Deliveries(now: int, n: nat): seq<Step> {
    seq(n, _ => DeliverCrawl(now))
  }

  /** The bound is reached, and the delivery after it parks the job. */
  lemma {:induction false} RedeliveryUntilPoisoned(cfg: Config, blobs: Blobs, shared: Shared, now: int, n: nat)
    requires n >= 1
    ensures var job := Run(cfg, Init(cfg, blobs, shared), Deliveries(now, n)).record.job;
            var most := Max(1, cfg.threshold);
            && job.attempts == (if n <= most then n else most)
            && job.state == (if n <= most then RUNNING else DEAD_LETTER)
            && job.lostWorkers == (if n <= most then n - 1 else most)
  {
    var init, steps := Init(cfg, blobs, shared), Deliveries(now, n);
    var front := steps[..n - 1];
    assert Run(cfg, init, steps) == Apply(cfg, Run(cfg, init, front), DeliverCrawl(now));
    if n == 1 {
      assert Run(cfg, init, front) == init;
    } else {
      assert front == Deliveries(now, n - 1);
      RedeliveryUntilPoisoned(cfg, blobs, shared, now, n - 1);
      var mid := Run(cfg, init, front);
      if mid.record.job.state == RUNNING {
        RedeliveryCounts(cfg, mid, now);
      }
    }
  }

  /** Counters and tables agree, and the plan is what is missing. */
  lemma CountersAreConserved(cfg: Config, s: State)
    requires Reachable(cfg, s)
    ensures var r := s.record;
            && r.job.pagesDone == |r.pages|
            && r.job.pagesDone + |PagesToFetch(r.pages.Keys, cfg.maxPages)| == cfg.maxPages
            && (r.job.resultKey.None? ==> r.job.rows == RecordedRows(r.pages, cfg.maxPages))
            && r.job.pagesFailed >= |r.failed|
            && (r.job.pagesFailed == 0 <==> r.failed == map[])
            && (forall p :: p in r.failed ==> 1 <= p <= cfg.maxPages && 1 <= r.failed[p].attempts <= 6)
  {
    ReachableKeepsInv(cfg, s);
    assert s.record.pages.Keys == set p | p in s.record.pages;
    PlanConservation(s.record.pages.Keys, cfg.maxPages);
  }

  /** Whatever died in between: a recorded page and a successful result have their
      object, with rows of that page, and assembly never misses one. */
  lemma StorageBeforeCheckpoint(cfg: Config, s: State)
    requires Reachable(cfg, s)
    ensures forall p :: p in s.record.pages ==> HasPageBlob(cfg, s.blobs, p)
    ensures forall k, r :: 0 <= k < |s.plans| && r in s.plans[k].returned && r.Done? ==>
              r.key == cfg.pageKey(r.page) && HasPageBlob(cfg, s.blobs, r.page)
    ensures forall f :: f in s.finalisers ==> LoadRows(s.finalisers[f].results, s.blobs).Ok?
    ensures s.record.job.resultKey.Some? ==> s.record.job.resultKey == Some(cfg.resultKey) && HasResult(cfg, s.blobs)
  {
    ReachableKeepsInv(cfg, s);
    forall k, r | 0 <= k < |s.plans| && r in s.plans[k].returned && r.Done?
      ensures r.key == cfg.pageKey(r.page) && HasPageBlob(cfg, s.blobs, r.page)
    {
      ReturnedIsStored(cfg, s, s.plans[k], r);
    }
    forall f | f in s.finalisers
      ensures LoadRows(s.finalisers[f].results, s.blobs).Ok?
    {
      FinaliserLoads(cfg, s, f);
    }
  }

  lemma ReturnedIsStored(cfg: Config, s: State, plan: Plan, r: PageResult)
    requires PlanOk(cfg, s, plan) && r in plan.returned && r.Done?
    ensures r.key == cfg.pageKey(r.page) && HasPageBlob(cfg, s.blobs, r.page)
  {
    assert ResultOk(cfg, s, plan.pages, r);
  }

  lemma BodyLoads(cfg: Config, s: State, plan: Plan)
    requires PlanOk(cfg, s, plan) && plan.body.Some?
    ensures LoadRows(plan.body.value, s.blobs).Ok?
  {
    var results := plan.body.value;
    SortSorts(results);
    SameMembers(SortByPage(results), results);
    forall r | r in SortByPage(results) && r.Done?
      ensures r.key in s.blobs
    {
      assert ResultOk(cfg, s, plan.pages, r);
    }
    NothingMissing(SortByPage(results), s.blobs);
  }

  lemma FinaliserLoads(cfg: Config, s: State, f: nat)
    requires Inv(cfg, s) && f in s.finalisers
    ensures LoadRows(s.finalisers[f].results, s.blobs).Ok?
  {
    assert FinaliserOk(cfg, s, s.finalisers[f]);
    BodyLoads(cfg, s, s.plans[s.finalisers[f].plan]);
  }

  /** A job that SUCCEEDED has recorded every page, however often it was resumed. */
  lemma SuccessIsComplete(cfg: Config, s: State)
    requires Reachable(cfg, s) && s.record.job.state == SUCCEEDED
    ensures forall p :: 1 <= p <= cfg.maxPages ==> p in s.record.pages
    ensures s.record.job.pagesDone == cfg.maxPages
  {
    ReachableKeepsInv(cfg, s);
    var k :| 0 <= k < |s.plans| && CleanBody(s.plans[k]);
    forall p | 1 <= p <= cfg.maxPages
      ensures p in s.record.pages
    {
      CleanBodyCovers(cfg, s, s.plans[k], p);
    }
    AllRecorded(cfg, s);
  }

  lemma AllRecorded(cfg: Config, s: State)
    requires Reachable(cfg, s) && forall p :: 1 <= p <= cfg.maxPages ==> p in s.record.pages
    ensures s.record.job.pagesDone == cfg.maxPages
  {
    CountersAreConserved(cfg, s);
    PlanIsMissingPages(s.record.pages.Keys, cfg.maxPages);
    NoneLeft(PagesToFetch(s.record.pages.Keys, cfg.maxPages));
  }

  lemma NoneLeft(pending: seq<nat>)
    ensures pending == [] || exists p :: p in pending
  {
    assert pending == [] || pending[0] in pending;
  }

  lemma CleanBodyCovers(cfg: Config, s: State, plan: Plan, p: nat)
    requires PlanOk(cfg, s, plan) && CleanBody(plan) && 1 <= p <= cfg.maxPages
    ensures p in s.record.pages
  {
    if p in plan.pages {
      var r :| r in plan.body.value && r.page == p;
      assert ResultOk(cfg, s, plan.pages, r);
    }
  }

  lemma {:induction false} NothingMissing(results: seq<PageResult>, blobs: Blobs)
    requires forall r :: r in results && r.Done? ==> r.key in blobs
    ensures RowsOf(results, blobs).Ok?
  {
    if results != [] {
      assert forall r :: r in results[..|results| - 1] ==> r in results;
      NothingMissing(results[..|results| - 1], blobs);
    }
  }

  // ----- the end of a job -----

  /** What a late page task can still change on a terminal job: its page counters. */
  function Frozen(job: Job): Job {
    job.(pagesDone := 0, pagesFailed := 0, rows := 0)
  }

  lemma TerminalStep(cfg: Config, s: State, step: Step, s': State)
    requires Leads(cfg, s, step, s') && s.record.job.state in TERMINAL_STATES
    ensures Frozen(s'.record.job) == Frozen(s.record.job)
  {
  }

  /** Once a job has ended, no run changes its state, error, result, times or attempts. */
  lemma {:induction false} TerminalIsFinal(cfg: Config, s: State, steps: seq<Step>)
    requires s.record.job.state in TERMINAL_STATES
    ensures Frozen(Run(cfg, s, steps).record.job) == Frozen(s.record.job)
  {
    if steps != [] {
      TerminalIsFinal(cfg, s, steps[..|steps| - 1]);
      var mid := Run(cfg, s, steps[..|steps| - 1]);
      ApplyLeads(cfg, mid, steps[|steps| - 1]);
      TerminalStep(cfg, mid, steps[|steps| - 1], Run(cfg, s, steps));
    }
  }

  predicate Moves(before: JobState, after: JobState, targets: set<JobState>) {
    after == before || (CanTransition(before, after) && after in targets)
  }

  lemma CrawlMoves(r: Record, threshold: int, now: int)
    ensures match CrawlTx(r, threshold, now)
            case Finished => true
            case Poisoned(r') => Moves(r.job.state, r'.job.state, {DEAD_LETTER})
            case Planned(r', _) => Moves(r.job.state, r'.job.state, {RUNNING})
  {
  }

  lemma CancelMoves(r: Record, now: int)
    ensures Moves(r.job.state, Committed(r, CancelTx(r, now)).job.state, {CANCELLED})
  {
  }

  lemma ParkMoves(r: Record, letter: DeadLetter, now: int)
    ensures Moves(r.job.state, Committed(r, ParkTx(r, letter, now)).job.state, {DEAD_LETTER})
  {
  }

  /** A finaliser's transaction writes the row exactly if the job is still RUNNING. */
  lemma FinishWrites(r: Record, o: Repo.Outcome, now: int)
    requires o.state in FINISHED
    ensures var r' := Committed(r, FinishTx(r, o, now));
            if r.job.state == RUNNING then
              r'.job.state == o.state && r'.job.rows == o.rows && r'.job.resultBytes == Some(o.bytes)
            else r' == r
  {
    OnlyRunningFinishes(r.job.state, o.state);
  }

  lemma StepMoves(cfg: Config, s: State, step: Step, s': State)
    requires Leads(cfg, s, step, s') && !step.Finish?
    ensures Moves(s.record.job.state, s'.record.job.state, {RUNNING, DEAD_LETTER, CANCELLED})
  {
    match step
    case DeliverCrawl(now) => CrawlMoves(s.record, cfg.threshold, now);
    case Cancel(now) => CancelMoves(s.record, now);
    case Park(letter, now) => ParkMoves(s.record, letter, now);
    case _ =>
  }

  /** A finaliser that finds the job not RUNNING any more rolls back. */
  lemma LateFinaliserRollsBack(cfg: Config, s: State, f: nat, now: int)
    requires f in s.finalisers && s.finalisers[f].Uploaded?
    ensures var s' := FinishStep(cfg, s, f, now);
            && (s.record.job.state != RUNNING <==> s'.record == s.record)
            && (s.record.job.state == RUNNING ==> s'.record.job.state in FINISHED)
  {
    var t := s.finalisers[f];
    FinishWrites(s.record, OutcomeOf(cfg.resultKey, t.emitted, t.suspect, t.pagesFailed, t.bytes), now);
  }

  /** Every step leaves the state alone or moves it along the table. */
  lemma StepsFollowTheTable(cfg: Config, s: State, step: Step)
    ensures var before, after := s.record.job.state, Apply(cfg, s, step).record.job.state;
            after == before || CanTransition(before, after)
  {
    ApplyLeads(cfg, s, step);
    if !step.Finish? {
      StepMoves(cfg, s, step, Apply(cfg, s, step));
    } else if step.f in s.finalisers && s.finalisers[step.f].Uploaded? {
      LateFinaliserRollsBack(cfg, s, step.f, step.now);
    }
  }

  // ----- how often a job is finalised -----

  /** The steps of a run in which a finaliser wrote to the job row. */
  ghost function Finishes(cfg: Config, s: State, steps: seq<Step>): nat {
    if steps == [] then 0
    else
      var front, last := steps[..|steps| - 1], steps[|steps| - 1];
      Finishes(cfg, s, front) + if FinishesIn(last, Run(cfg, s, front), Run(cfg, s, steps)) then 1 else 0
  }

  predicate FinishesIn(step: Step, s: State, s': State) {
    step.Finish? && s'.record != s.record
  }

  lemma FinishStepFinishes(cfg: Config, s: State, f: nat, now: int, s': State)
    requires s' == FinishStep(cfg, s, f, now)
    ensures s'.record != s.record ==> s.record.job.state !in FINISHED && s'.record.job.state in FINISHED
  {
    if f in s.finalisers && s.finalisers[f].Uploaded? {
      LateFinaliserRollsBack(cfg, s, f, now);
    }
  }

  lemma OtherStepDoesNot(cfg: Config, s: State, step: Step, s': State)
    requires Leads(cfg, s, step, s') && !step.Finish?
    ensures s'.record.job.state in FINISHED <==> s.record.job.state in FINISHED
  {
    StepMoves(cfg, s, step, s');
    TerminalIsFinalState(s.record.job.state, s'.record.job.state);
  }

  lemma TerminalIsFinalState(before: JobState, after: JobState)
    requires Moves(before, after, {RUNNING, DEAD_LETTER, CANCELLED})
    ensures after in FINISHED <==> before in FINISHED
  {
  }

  /** A job that was not finished is, after a step, exactly if the step was a
      finaliser's that wrote, and a finished job is not written again. */
  lemma FinishesOnce(cfg: Config, s: State, step: Step, s': State)
    requires Leads(cfg, s, step, s')
    ensures s'.record.job.state in FINISHED <==> s.record.job.state in FINISHED || FinishesIn(step, s, s')
    ensures s.record.job.state in FINISHED ==> !FinishesIn(step, s, s')
  {
    if step.Finish? {
      FinishStepFinishes(cfg, s, step.f, step.now, s');
    } else {
      OtherStepDoesNot(cfg, s, step, s');
    }
  }

  /** However often the callback is delivered, the job is finalised exactly once if it
      ends by itself and never otherwise. */
  lemma {:induction false} FinalisedOnce(cfg: Config, s: State, steps: seq<Step>)
    requires s.record.job.state !in FINISHED
    ensures Finishes(cfg, s, steps) == if Run(cfg, s, steps).record.job.state in FINISHED then 1 else 0
  {
    if steps != [] {
      var front, last := steps[..|steps| - 1], steps[|steps| - 1];
      FinalisedOnce(cfg, s, front);
      ApplyLeads(cfg, Run(cfg, s, front), last);
      FinishesOnce(cfg, Run(cfg, s, front), last, Run(cfg, s, steps));
    }
  }
}
