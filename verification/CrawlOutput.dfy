/** What a job's result file holds: the fan-out over page tasks refines one worker
    that reads the pages in order, whatever is retried, repeated or interleaved. */
module CrawlOutput {
  import opened Wrappers
  import opened States
  import opened Repo
  import opened Export
  import opened Crawl
  import opened CrawlInvariant
  import opened CrawlRuns
  import Dedupe

  /** The site answers page p with the same rows whenever it is fetched. */
  ghost predicate Fixed(cfg: Config, content: nat -> seq<Row>) {
    forall p, rows :: cfg.mayYield(p, rows) ==> rows == content(p)
  }

  /** What one worker would deliver for a completed chord: the pages of its header in
      order, those whose result carries a key, concatenated and deduplicated. */
  function Output(cfg: Config, content: nat -> seq<Row>, plan: Plan): seq<Row>
    requires plan.body.Some?
  {
    Dedupe.Deduped(SequentialRows(plan.pages, KeyedPages(plan.body.value), content), cfg.target.rowKey)
  }

  // ----- the output invariant -----

  ghost predicate Carries(cfg: Config, content: nat -> seq<Row>, plan: Plan, t: Finaliser) {
    && plan.body == Some(t.results)
    && (!t.Begun? ==> t.rows == Output(cfg, content, plan))
    && (t.Settled? || t.Uploaded? ==>
          && (!cfg.incremental ==> t.emitted == t.rows)
          && (PagesDone(t.results) == 0 ==> t.suspect))
    && (t.Uploaded? ==> t.bytes == cfg.size(t.emitted))
  }

  ghost predicate FinalisersCarry(cfg: Config, content: nat -> seq<Row>, plans: seq<Plan>,
                                  finalisers: map<nat, Finaliser>) {
    forall f :: f in finalisers ==>
      finalisers[f].plan < |plans| && Carries(cfg, content, plans[finalisers[f].plan], finalisers[f])
  }

  /** The rows are the output of one of the job's completed chords. */
  ghost predicate FromPlan(cfg: Config, content: nat -> seq<Row>, plans: seq<Plan>, rows: seq<Row>) {
    exists k :: 0 <= k < |plans| && plans[k].body.Some? && rows == Output(cfg, content, plans[k])
  }

  ghost predicate FileOk(cfg: Config, content: nat -> seq<Row>, plans: seq<Plan>, blobs: Blobs) {
    !cfg.incremental && HasResult(cfg, blobs) ==> FromPlan(cfg, content, plans, blobs[cfg.resultKey].rows)
  }

  /** The job row was filled in by a finaliser of this plan.  Late page tasks can still
      add to `rows`, unless the job SUCCEEDED. */
  ghost predicate FinishedBy(cfg: Config, content: nat -> seq<Row>, job: Job, plan: Plan) {
    && plan.body.Some?
    && (forall r :: r in plan.body.value ==> !r.Skipped?)
    && (job.state == SUCCEEDED ==> CleanBody(plan))
    && (PagesDone(plan.body.value) == 0 ==> job.state == SUSPECT)
    && (!cfg.incremental ==>
          var out := Output(cfg, content, plan);
          && job.resultBytes == Some(cfg.size(out))
          && job.rows >= |out|
          && (job.state == SUCCEEDED ==> job.rows == |out|))
  }

  ghost predicate RowOk(cfg: Config, content: nat -> seq<Row>, plans: seq<Plan>, job: Job) {
    job.state in FINISHED ==> exists k :: 0 <= k < |plans| && FinishedBy(cfg, content, job, plans[k])
  }

  ghost predicate OutputOk(cfg: Config, content: nat -> seq<Row>, s: State) {
    (&& FinalisersCarry(cfg, content, s.plans, s.finalisers)
     && FileOk(cfg, content, s.plans, s.blobs)
     && RowOk(cfg, content, s.plans, s.record.job)) == true
  }

  // ----- steps that leave the output alone -----

  ghost predicate JobQuiet(job: Job, job': Job) {
    if job.state in FINISHED then
      && job'.state == job.state && job'.resultBytes == job.resultBytes && job'.rows >= job.rows
      && (job.state == SUCCEEDED ==> job'.rows == job.rows)
    else
      job'.state !in FINISHED
  }

  ghost predicate Quiet(cfg: Config, s: State, s': State) {
    && PlansGrow(s.plans, s'.plans)
    && (forall f :: f in s'.finalisers ==> f in s.finalisers && s'.finalisers[f] == s.finalisers[f])
    && (cfg.resultKey in s'.blobs ==> cfg.resultKey in s.blobs && s'.blobs[cfg.resultKey] == s.blobs[cfg.resultKey])
    && JobQuiet(s.record.job, s'.record.job)
  }

  lemma FinalisersStay(cfg: Config, content: nat -> seq<Row>, s: State, s': State)
    requires FinalisersCarry(cfg, content, s.plans, s.finalisers) && Quiet(cfg, s, s')
    ensures FinalisersCarry(cfg, content, s'.plans, s'.finalisers)
  {
    forall f | f in s'.finalisers
      ensures s'.finalisers[f].plan < |s'.plans|
              && Carries(cfg, content, s'.plans[s'.finalisers[f].plan], s'.finalisers[f])
    {
      assert Carries(cfg, content, s.plans[s.finalisers[f].plan], s.finalisers[f]);
    }
  }

  lemma FileStays(cfg: Config, content: nat -> seq<Row>, s: State, s': State)
    requires FileOk(cfg, content, s.plans, s.blobs) && Quiet(cfg, s, s')
    ensures FileOk(cfg, content, s'.plans, s'.blobs)
  {
    if !cfg.incremental && HasResult(cfg, s'.blobs) {
      var rows := s.blobs[cfg.resultKey].rows;
      var k :| 0 <= k < |s.plans| && s.plans[k].body.Some? && rows == Output(cfg, content, s.plans[k]);
      assert s'.plans[k].body == s.plans[k].body;
    }
  }

  lemma RowStays(cfg: Config, content: nat -> seq<Row>, s: State, s': State)
    requires RowOk(cfg, content, s.plans, s.record.job) && Quiet(cfg, s, s')
    ensures RowOk(cfg, content, s'.plans, s'.record.job)
  {
    if s.record.job.state in FINISHED {
      var k :| 0 <= k < |s.plans| && FinishedBy(cfg, content, s.record.job, s.plans[k]);
      assert FinishedBy(cfg, content, s'.record.job, s'.plans[k]);
    }
  }

  lemma QuietKeeps(cfg: Config, content: nat -> seq<Row>, s: State, s': State)
    requires OutputOk(cfg, content, s) && Quiet(cfg, s, s')
    ensures OutputOk(cfg, content, s')
  {
    FinalisersStay(cfg, content, s, s');
    FileStays(cfg, content, s, s');
    RowStays(cfg, content, s, s');
  }

  predicate Loud(step: Step) {
    step.Assemble? || step.Load? || step.Settle? || step.Upload? || step.Finish?
  }

  /** A recorded page stays as it is once the job has SUCCEEDED, so late page tasks
      add nothing to its row count. */
  lemma LatePagesAddNothing(cfg: Config, s: State, w: nat)
    requires Inv(cfg, s) && s.record.job.state == SUCCEEDED
    ensures CommitPageStep(cfg, s, w).record == s.record
  {
    if w in s.workers && s.workers[w].Stored? {
      var t := s.workers[w];
      var k :| 0 <= k < |s.plans| && CleanBody(s.plans[k]);
      assert WorkerOk(cfg, s, t) && PlanOk(cfg, s, s.plans[t.plan]);
      CleanBodyCovers(cfg, s, s.plans[k], t.page);
    }
  }

  lemma CommitOnlyAdds(cfg: Config, s: State, w: nat)
    ensures CommitPageStep(cfg, s, w).record.job.rows >= s.record.job.rows
  {
  }

  lemma OthersLeaveRows(cfg: Config, s: State, step: Step, s': State)
    requires Leads(cfg, s, step, s') && !step.Finish? && !step.CommitPage? && s.record.job.state in FINISHED
    ensures s'.record.job.rows == s.record.job.rows
  {
  }

  lemma RowsOnlyGrow(cfg: Config, s: State, step: Step, s': State)
    requires Inv(cfg, s) && Leads(cfg, s, step, s') && !step.Finish? && s.record.job.state in FINISHED
    ensures s'.record.job.rows >= s.record.job.rows
    ensures s.record.job.state == SUCCEEDED ==> s'.record.job.rows == s.record.job.rows
  {
    if !step.CommitPage? {
      OthersLeaveRows(cfg, s, step, s');
    } else if s.record.job.state == SUCCEEDED {
      LatePagesAddNothing(cfg, s, step.w);
    } else {
      CommitOnlyAdds(cfg, s, step.w);
    }
  }

  lemma JobIsQuiet(cfg: Config, s: State, step: Step, s': State)
    requires Inv(cfg, s) && Leads(cfg, s, step, s') && !step.Finish?
    ensures JobQuiet(s.record.job, s'.record.job)
  {
    if s.record.job.state in FINISHED {
      TerminalStep(cfg, s, step, s');
      var before, after := Frozen(s.record.job), Frozen(s'.record.job);
      assert after.state == before.state && after.resultBytes == before.resultBytes;
      RowsOnlyGrow(cfg, s, step, s');
    } else {
      OtherStepDoesNot(cfg, s, step, s');
    }
  }

  lemma PlansOnlyGrow(cfg: Config, s: State, step: Step, s': State)
    requires Leads(cfg, s, step, s')
    ensures PlansGrow(s.plans, s'.plans)
  {
  }

  lemma FinalisersAreQuiet(cfg: Config, s: State, step: Step, s': State)
    requires Leads(cfg, s, step, s') && !Loud(step)
    ensures forall f :: f in s'.finalisers ==> f in s.finalisers && s'.finalisers[f] == s.finalisers[f]
  {
  }

  lemma ResultIsQuiet(cfg: Config, s: State, step: Step, s': State)
    requires Leads(cfg, s, step, s') && DistinctKeys(cfg) && !step.Upload?
    ensures cfg.resultKey in s'.blobs ==> cfg.resultKey in s.blobs && s'.blobs[cfg.resultKey] == s.blobs[cfg.resultKey]
  {
  }

  lemma StepIsQuiet(cfg: Config, s: State, step: Step, s': State)
    requires Leads(cfg, s, step, s') && DistinctKeys(cfg) && Inv(cfg, s) && !Loud(step)
    ensures Quiet(cfg, s, s')
  {
    JobIsQuiet(cfg, s, step, s');
    PlansOnlyGrow(cfg, s, step, s');
    FinalisersAreQuiet(cfg, s, step, s');
    ResultIsQuiet(cfg, s, step, s');
  }

  // ----- the steps of a finaliser -----

  lemma FinaliserMoves(cfg: Config, content: nat -> seq<Row>, s: State, f: nat, t: Finaliser, shared: Shared)
    requires OutputOk(cfg, content, s) && t.plan < |s.plans| && Carries(cfg, content, s.plans[t.plan], t)
    ensures OutputOk(cfg, content, s.(finalisers := s.finalisers[f := t], shared := shared))
  {
    assert FinalisersCarry(cfg, content, s.plans, s.finalisers[f := t]);
  }

  lemma FinaliserGoes(cfg: Config, content: nat -> seq<Row>, s: State, f: nat, shared: Shared)
    requires OutputOk(cfg, content, s)
    ensures OutputOk(cfg, content, s.(finalisers := s.finalisers - {f}, shared := shared))
  {
    assert FinalisersCarry(cfg, content, s.plans, s.finalisers - {f});
  }

  lemma AssembleCarries(cfg: Config, content: nat -> seq<Row>, s: State, f: nat, k: nat)
    requires OutputOk(cfg, content, s)
    ensures OutputOk(cfg, content, AssembleStep(s, f, k))
  {
    if AssembleStep(s, f, k) != s {
      FinaliserMoves(cfg, content, s, f, Begun(k, s.plans[k].body.value, s.record.job.pagesFailed), s.shared);
    }
  }

  lemma BodyLoadsInOrder(cfg: Config, content: nat -> seq<Row>, s: State, plan: Plan)
    requires Fixed(cfg, content) && PlanOk(cfg, s, plan) && plan.body.Some?
    ensures LoadRows(plan.body.value, s.blobs) == Ok(SequentialRows(plan.pages, KeyedPages(plan.body.value), content))
  {
    forall r | r in plan.body.value && r.Done?
      ensures r.key in s.blobs && s.blobs[r.key].rows == content(r.page)
    {
      assert ResultOk(cfg, s, plan.pages, r);
    }
    LoadIsSequential(plan.body.value, plan.pages, s.blobs, content);
  }

  lemma LoadCarries(cfg: Config, content: nat -> seq<Row>, s: State, f: nat)
    requires Fixed(cfg, content) && Inv(cfg, s) && OutputOk(cfg, content, s)
    ensures OutputOk(cfg, content, LoadStep(cfg, s, f))
  {
    if f in s.finalisers && s.finalisers[f].Begun? {
      var t := s.finalisers[f];
      assert FinaliserOk(cfg, s, t);
      BodyLoadsInOrder(cfg, content, s, s.plans[t.plan]);
      FinaliserMoves(cfg, content, s, f,
                     Loaded(t.plan, t.results, t.pagesFailed,
                       Dedupe.Deduped(LoadRows(t.results, s.blobs).value, cfg.target.rowKey)),
                     s.shared);
    }
  }

  lemma SettleCarries(cfg: Config, content: nat -> seq<Row>, s: State, f: nat)
    requires OutputOk(cfg, content, s)
    ensures OutputOk(cfg, content, SettleStep(cfg, s, f))
  {
    if f in s.finalisers && s.finalisers[f].Loaded? {
      var t := s.finalisers[f];
      assert Carries(cfg, content, s.plans[t.plan], t);
      match SettleTx(cfg.target, s.shared, t.rows, PagesDone(t.results), cfg.incremental)
      case Err(_) => FinaliserGoes(cfg, content, s, f, s.shared);
      case Ok(done) =>
        FinaliserMoves(cfg, content, s, f,
          Settled(t.plan, t.results, t.pagesFailed, t.rows, done.emitted, done.suspect), done.shared);
    }
  }

  lemma FileIsWritten(cfg: Config, content: nat -> seq<Row>, s: State, plan: nat, rows: seq<Row>)
    requires OutputOk(cfg, content, s) && plan < |s.plans| && s.plans[plan].body.Some?
    requires !cfg.incremental ==> rows == Output(cfg, content, s.plans[plan])
    ensures OutputOk(cfg, content, s.(blobs := s.blobs[cfg.resultKey := ResultBlob(rows)]))
  {
    assert FileOk(cfg, content, s.plans, s.blobs[cfg.resultKey := ResultBlob(rows)]);
  }

  lemma UploadCarries(cfg: Config, content: nat -> seq<Row>, s: State, f: nat)
    requires OutputOk(cfg, content, s)
    ensures OutputOk(cfg, content, UploadStep(cfg, s, f))
  {
    if f in s.finalisers && s.finalisers[f].Settled? {
      var t := s.finalisers[f];
      assert Carries(cfg, content, s.plans[t.plan], t);
      FileIsWritten(cfg, content, s, t.plan, t.emitted);
      FinaliserMoves(cfg, content, s.(blobs := s.blobs[cfg.resultKey := ResultBlob(t.emitted)]), f,
                     Uploaded(t.plan, t.results, t.pagesFailed, t.rows, t.emitted, t.suspect, cfg.size(t.emitted)),
                       s.shared);
    }
  }

  lemma RowIsWritten(cfg: Config, content: nat -> seq<Row>, s: State, plan: nat, record: Record)
    requires OutputOk(cfg, content, s) && plan < |s.plans| && FinishedBy(cfg, content, record.job, s.plans[plan])
    ensures OutputOk(cfg, content, s.(record := record))
  {
    assert RowOk(cfg, content, s.plans, record.job);
  }

  lemma FinishedRowCarries(cfg: Config, content: nat -> seq<Row>, s: State, t: Finaliser, now: int)
    requires Inv(cfg, s) && OutputOk(cfg, content, s) && FinaliserOk(cfg, s, t) && t.Uploaded?
    requires Carries(cfg, content, s.plans[t.plan], t)
    ensures var o := OutcomeOf(cfg.resultKey, t.emitted, t.suspect, t.pagesFailed, t.bytes);
            OutputOk(cfg, content, s.(record := Committed(s.record, FinishTx(s.record, o, now))))
  {
    var o := OutcomeOf(cfg.resultKey, t.emitted, t.suspect, t.pagesFailed, t.bytes);
    FinishWrites(s.record, o, now);
    if s.record.job.state == RUNNING {
      NothingSkipped(cfg, s, t);
      RowIsWritten(cfg, content, s, t.plan, Committed(s.record, FinishTx(s.record, o, now)));
    }
  }

  lemma FinishCarries(cfg: Config, content: nat -> seq<Row>, s: State, f: nat, now: int)
    requires Inv(cfg, s) && OutputOk(cfg, content, s)
    ensures OutputOk(cfg, content, FinishStep(cfg, s, f, now))
  {
    if f in s.finalisers && s.finalisers[f].Uploaded? {
      var t := s.finalisers[f];
      var o := OutcomeOf(cfg.resultKey, t.emitted, t.suspect, t.pagesFailed, t.bytes);
      assert FinaliserOk(cfg, s, t) && Carries(cfg, content, s.plans[t.plan], t);
      FinishedRowCarries(cfg, content, s, t, now);
      FinaliserGoes(cfg, content, s.(record := Committed(s.record, FinishTx(s.record, o, now))), f, s.shared);
    }
  }

  lemma LoudStepKeeps(cfg: Config, content: nat -> seq<Row>, s: State, step: Step, s': State)
    requires Leads(cfg, s, step, s') && Loud(step)
    requires Fixed(cfg, content) && Inv(cfg, s) && OutputOk(cfg, content, s)
    ensures OutputOk(cfg, content, s')
  {
    match step
    case Assemble(f, k) => AssembleCarries(cfg, content, s, f, k);
    case Load(f) => LoadCarries(cfg, content, s, f);
    case Settle(f) => SettleCarries(cfg, content, s, f);
    case Upload(f) => UploadCarries(cfg, content, s, f);
    case Finish(f, now) => FinishCarries(cfg, content, s, f, now);
  }

  lemma OutputKept(cfg: Config, content: nat -> seq<Row>, s: State, step: Step)
    requires DistinctKeys(cfg) && Fixed(cfg, content) && Inv(cfg, s) && OutputOk(cfg, content, s)
    ensures OutputOk(cfg, content, Apply(cfg, s, step))
  {
    var s' := Apply(cfg, s, step);
    ApplyLeads(cfg, s, step);
    if Loud(step) {
      LoudStepKeeps(cfg, content, s, step, s');
    } else {
      StepIsQuiet(cfg, s, step, s');
      QuietKeeps(cfg, content, s, s');
    }
  }

  lemma {:induction false} RunKeepsOutput(cfg: Config, content: nat -> seq<Row>, s: State, steps: seq<Step>)
    requires DistinctKeys(cfg) && Fixed(cfg, content) && Inv(cfg, s) && OutputOk(cfg, content, s)
    ensures OutputOk(cfg, content, Run(cfg, s, steps))
  {
    if steps != [] {
      RunKeepsOutput(cfg, content, s, steps[..|steps| - 1]);
      RunKeepsInv(cfg, s, steps[..|steps| - 1]);
      OutputKept(cfg, content, Run(cfg, s, steps[..|steps| - 1]), steps[|steps| - 1]);
    }
  }

  lemma ReachableKeepsOutput(cfg: Config, content: nat -> seq<Row>, s: State)
    requires Reachable(cfg, s) && Fixed(cfg, content)
    ensures OutputOk(cfg, content, s)
  {
    var blobs, shared, steps :| FreshJob(cfg, blobs) && s == Run(cfg, Init(cfg, blobs, shared), steps);
    InitHolds(cfg, blobs, shared);
    assert !HasResult(cfg, blobs);
    RunKeepsOutput(cfg, content, Init(cfg, blobs, shared), steps);
  }

  // ----- the main results -----

  /** The simple loop: fetch pages 1..n in order and collect their rows. */
  function Loop(n: nat, content: nat -> seq<Row>): seq<Row> {
    if n == 0 then [] else Loop(n - 1, content) + content(n)
  }

  lemma {:induction false} SequentialIsLoop(n: nat, kept: set<nat>, content: nat -> seq<Row>)
    requires forall p :: 1 <= p <= n ==> p in kept
    ensures SequentialRows(PagesToFetch({}, n), kept, content) == Loop(n, content)
  {
    if n > 0 {
      SequentialIsLoop(n - 1, kept, content);
      var pages := PagesToFetch({}, n);
      assert pages[..|pages| - 1] == PagesToFetch({}, n - 1) && pages[|pages| - 1] == n;
    }
  }

  lemma OnlyPlanIsTheFile(cfg: Config, content: nat -> seq<Row>, plans: seq<Plan>, blobs: Blobs)
    requires FileOk(cfg, content, plans, blobs) && |plans| == 1 && !cfg.incremental && HasResult(cfg, blobs)
    ensures plans[0].body.Some? && blobs[cfg.resultKey].rows == Output(cfg, content, plans[0])
  {
    var k :| 0 <= k < |plans| && plans[k].body.Some? && blobs[cfg.resultKey].rows == Output(cfg, content, plans[k]);
    assert k == 0;
  }

  lemma OnlyPlanFinished(cfg: Config, content: nat -> seq<Row>, plans: seq<Plan>, job: Job)
    requires RowOk(cfg, content, plans, job) && |plans| == 1 && job.state in FINISHED
    ensures FinishedBy(cfg, content, job, plans[0])
  {
    var k :| 0 <= k < |plans| && FinishedBy(cfg, content, job, plans[k]);
    assert k == 0;
  }

  lemma OutputParts(cfg: Config, content: nat -> seq<Row>, s: State)
    requires OutputOk(cfg, content, s)
    ensures FinalisersCarry(cfg, content, s.plans, s.finalisers)
    ensures FileOk(cfg, content, s.plans, s.blobs) && RowOk(cfg, content, s.plans, s.record.job)
  {
  }

  lemma FirstPlan(cfg: Config, s: State)
    requires Inv(cfg, s) && s.plans != []
    ensures PlanOk(cfg, s, s.plans[0]) && s.plans[0].pages == PagesToFetch({}, cfg.maxPages)
  {
  }

  /** A job fanned out once, not incremental: whatever was retried, delivered again or
      lost, every result file it ever stores is the deduplicated sequential read of the
      pages whose chord result carries a key, and the job row describes that file. */
  lemma FanOutRefinesSequentialLoop(cfg: Config, content: nat -> seq<Row>, s: State)
    requires Reachable(cfg, s) && Fixed(cfg, content) && |s.plans| == 1 && !cfg.incremental
    requires HasResult(cfg, s.blobs)
    ensures s.plans[0].body.Some?
    ensures var results := s.plans[0].body.value;
            var out := Dedupe.Deduped(SequentialRows(PagesToFetch({}, cfg.maxPages), KeyedPages(results), content),
              cfg.target.rowKey);
            && s.blobs[cfg.resultKey].rows == out
            && (s.record.job.state in FINISHED ==> s.record.job.resultBytes == Some(cfg.size(out)))
            && (s.record.job.state == SUCCEEDED ==> s.record.job.rows == |out|)
  {
    assert s.plans[0].pages == PagesToFetch({}, cfg.maxPages) by {
      ReachableKeepsInv(cfg, s);
      FirstPlan(cfg, s);
    }
    assert FileOk(cfg, content, s.plans, s.blobs) && RowOk(cfg, content, s.plans, s.record.job) by {
      ReachableKeepsOutput(cfg, content, s);
      OutputParts(cfg, content, s);
    }
    OnlyPlanIsTheFile(cfg, content, s.plans, s.blobs);
    if s.record.job.state in FINISHED {
      OnlyPlanFinished(cfg, content, s.plans, s.record.job);
    }
  }

  /** However often the job was resumed, a finaliser that has read its pages holds the
      sequential read of its own chord, and a full result file is one chord's. */
  lemma EveryFinaliserReadsSequentially(cfg: Config, content: nat -> seq<Row>, s: State)
    requires Reachable(cfg, s) && Fixed(cfg, content)
    ensures FinalisersCarry(cfg, content, s.plans, s.finalisers)
    ensures !cfg.incremental && HasResult(cfg, s.blobs) ==> FromPlan(cfg, content, s.plans, s.blobs[cfg.resultKey].rows)
  {
    ReachableKeepsOutput(cfg, content, s);
    OutputParts(cfg, content, s);
  }

  lemma CountedPage(cfg: Config, s: State, p: nat)
    requires Reachable(cfg, s) && p in s.record.pages
    ensures HasPageBlob(cfg, s.blobs, p) && Counts(cfg, p, s.record.pages[p])
  {
    ReachableKeepsInv(cfg, s);
  }

  /** A recorded page counts exactly the rows of the page, and they are in its object. */
  lemma CountsAreThePages(cfg: Config, content: nat -> seq<Row>, s: State, p: nat)
    requires Reachable(cfg, s) && Fixed(cfg, content) && p in s.record.pages
    ensures s.record.pages[p] == |content(p)|
    ensures cfg.pageKey(p) in s.blobs && s.blobs[cfg.pageKey(p)].rows == content(p)
  {
    CountedPage(cfg, s, p);
  }

  /** If it SUCCEEDED, the file is the whole target. */
  lemma SuccessIsTheWholeTarget(cfg: Config, content: nat -> seq<Row>, s: State)
    requires Reachable(cfg, s) && Fixed(cfg, content) && |s.plans| == 1 && !cfg.incremental
    requires s.record.job.state == SUCCEEDED
    ensures HasResult(cfg, s.blobs)
    ensures s.blobs[cfg.resultKey].rows == Dedupe.Deduped(Loop(cfg.maxPages, content), cfg.target.rowKey)
    ensures s.record.job.rows == |s.blobs[cfg.resultKey].rows|
  {
    StorageBeforeCheckpoint(cfg, s);
    ReachableKeepsInv(cfg, s);
    FanOutRefinesSequentialLoop(cfg, content, s);
    assert PlanOk(cfg, s, s.plans[0]) && s.plans[0].pages == PagesToFetch({}, cfg.maxPages);
    CleanBodyIsKeyed(cfg, s);
    SequentialIsLoop(cfg.maxPages, KeyedPages(s.plans[0].body.value), content);
  }

  lemma CleanBodyIsKeyed(cfg: Config, s: State)
    requires Inv(cfg, s) && |s.plans| == 1 && s.record.job.state == SUCCEEDED
    ensures s.plans[0].body.Some? && forall p :: 1 <= p <= cfg.maxPages ==> p in KeyedPages(s.plans[0].body.value)
  {
    var plan := s.plans[0];
    assert CleanBody(plan) && PlanOk(cfg, s, plan);
    PlanIsMissingPages({}, cfg.maxPages);
    forall p | 1 <= p <= cfg.maxPages
      ensures p in KeyedPages(plan.body.value)
    {
      assert p in plan.pages;
      var r :| r in plan.body.value && r.page == p;
    }
  }

  lemma AnsweredPage(cfg: Config, s: State, plan: Plan, p: nat)
    requires PlanOk(cfg, s, plan) && plan.body.Some? && p in plan.pages
    requires forall r :: r in plan.body.value ==> !r.Skipped?
    ensures p in KeyedPages(plan.body.value) || p in s.record.failed
  {
    var r :| r in plan.body.value && r.page == p;
    assert ResultOk(cfg, s, plan.pages, r);
  }

  /** A page that is missing from a finished job's file has a failure on record. */
  lemma MissingPagesFailed(cfg: Config, content: nat -> seq<Row>, s: State, p: nat)
    requires Reachable(cfg, s) && Fixed(cfg, content) && |s.plans| == 1 && s.record.job.state in FINISHED
    requires 1 <= p <= cfg.maxPages
    ensures s.plans[0].body.Some?
    ensures p in KeyedPages(s.plans[0].body.value) || p in s.record.failed
  {
    assert PlanOk(cfg, s, s.plans[0]) && s.plans[0].pages == PagesToFetch({}, cfg.maxPages) by {
      ReachableKeepsInv(cfg, s);
      FirstPlan(cfg, s);
    }
    assert RowOk(cfg, content, s.plans, s.record.job) by {
      ReachableKeepsOutput(cfg, content, s);
      OutputParts(cfg, content, s);
    }
    OnlyPlanFinished(cfg, content, s.plans, s.record.job);
    PlanIsMissingPages({}, cfg.maxPages);
    AnsweredPage(cfg, s, s.plans[0], p);
  }
}
