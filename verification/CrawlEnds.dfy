/** How jobs end: what a finaliser decides and from which numbers, and what a cancelled
    job still does. */
module CrawlEnds {
  import opened Wrappers
  import opened States
  import opened Repo
  import opened Export
  import opened Crawl
  import opened CrawlInvariant
  import opened CrawlRuns
  import opened CrawlOutput
  import opened CrawlRedelivery
  import opened CrawlPaths
  import opened CrawlResume
  import Dedupe
  import Drift
  import Text

  // ----- the end of an undisturbed finaliser -----

  /** The job as a finaliser leaves it, in numbers: SUSPECT if its rows are too few,
      otherwise PARTIAL if a page failed, otherwise SUCCEEDED. */
  ghost predicate EndsAs(cfg: Config, job: Job, job': Job, low: bool, emitted: seq<Row>, now: int) {
    && job'.state == (if low then SUSPECT else if job.pagesFailed > 0 then PARTIAL else SUCCEEDED)
    && job'.rows == |emitted| && job'.resultBytes == Some(cfg.size(emitted)) && job'.resultKey == Some(cfg.resultKey)
    && job'.finishedAt == Some(now)
    && (!low && job.pagesFailed == 0 ==> job'.error == job.error)
    && (!low && job.pagesFailed > 0 ==>
          job'.error == Some(Take(Text.Decimal(job.pagesFailed) + " page(s) failed permanently", 4000)))
    && (low ==> job'.error.Some?)
  }

  lemma OutcomeEnds(cfg: Config, r: Record, emitted: seq<Row>, suspect: bool, now: int)
    requires r.job.state == RUNNING
    ensures var o := OutcomeOf(cfg.resultKey, emitted, suspect, r.job.pagesFailed, cfg.size(emitted));
            EndsAs(cfg, r.job, Committed(r, FinishTx(r, o, now)).job, suspect, emitted, now)
  {
  }

  /** An undisturbed finaliser of a RUNNING job judges all the rows it has read, and
      leaves those it emits in the file. */
  lemma FinaliserEnds(cfg: Config, s: State, f: nat, k: nat, now: int, rows: seq<Row>, done: Settlement)
    requires s.record.job.state == RUNNING && f !in s.finalisers && CanSettle(cfg, s, k, rows, done)
    ensures var s' := Finalised(cfg, s, f, k, now);
            var low := BelowFloor(s.shared.baseline, |rows|, PagesDone(s.plans[k].body.value), cfg.target.minRatio);
            && EndsAs(cfg, s.record.job, s'.record.job, low, done.emitted, now)
            && Holds(s'.blobs, cfg.resultKey, done.emitted)
  {
    FinaliserAlone(cfg, s, f, k, now, rows, done);
    SettlementIsOfAllRows(cfg.target, s.shared, rows, PagesDone(s.plans[k].body.value), cfg.incremental);
    OutcomeEnds(cfg, s.record, done.emitted, done.suspect, now);
  }

  // ----- an incremental run that finds nothing new -----

  ghost predicate Unchanged(t: Target, snapshot: Dedupe.Snapshot, rows: seq<Row>) {
    && Dedupe.Distinct(rows, Dedupe.KeyBy(t.rowKey))
    && forall i :: 0 <= i < |rows| ==> Recorded(t, snapshot, rows[i])
  }

  lemma UnchangedSettles(t: Target, shared: Shared, rows: seq<Row>, pagesDone: nat) returns (done: Settlement)
    requires Unchanged(t, shared.snapshot, rows)
    ensures SettleTx(t, shared, rows, pagesDone, true) == Ok(done) && done.emitted == []
  {
    var key := Dedupe.KeyBy(t.rowKey);
    Dedupe.StoreSucceedsIffDistinct(shared.snapshot, rows, key, t.hash);
    forall i | 0 <= i < |rows|
      ensures key(rows[i]) in shared.snapshot && shared.snapshot[key(rows[i])] == t.hash(rows[i])
    {
      assert Recorded(t, shared.snapshot, rows[i]);
    }
    Dedupe.UnchangedDiffIsEmpty(rows, key, t.hash, shared.snapshot);
    done := SettleTx(t, shared, rows, pagesDone, true).value;
  }

  /** It emits nothing, is judged by all its rows all the same, and if they are enough
      and no page failed it ends SUCCEEDED with an empty file. */
  lemma UnchangedRunSucceeds(cfg: Config, s: State, f: nat, k: nat, now: int, rows: seq<Row>) returns (s': State)
    requires cfg.incremental && s.record.job.state == RUNNING && s.record.job.pagesFailed == 0 && f !in s.finalisers
    requires CanLoad(cfg, s, k, rows) && Unchanged(cfg.target, s.shared.snapshot, rows)
    ensures Gets(cfg, s, s') && Holds(s'.blobs, cfg.resultKey, []) && s'.record.job.rows == 0
    ensures var pagesDone := PagesDone(s.plans[k].body.value);
            s'.record.job.state
            == if BelowFloor(s.shared.baseline, |rows|, pagesDone, cfg.target.minRatio) then SUSPECT else SUCCEEDED
  {
    var done := UnchangedSettles(cfg.target, s.shared, rows, PagesDone(s.plans[k].body.value));
    s' := Finalised(cfg, s, f, k, now);
    FinaliserEnds(cfg, s, f, k, now, rows, done);
    FinaliserGets(cfg, s, f, k, now);
  }

  /** Such runs exist for every incremental job whose pages the site answers with rows
      that the target has already, enough of them for its baseline. */
  lemma UnchangedRunIsReached(cfg: Config, content: nat -> seq<Row>, blobs: Blobs, shared: Shared, now: int)
    returns (s: State)
    requires FreshJob(cfg, blobs) && Fixed(cfg, content) && Answered(cfg, content) && cfg.incremental
    requires Unchanged(cfg.target, shared.snapshot, WholeTarget(cfg, content))
    requires !BelowFloor(shared.baseline, |WholeTarget(cfg, content)|, cfg.maxPages, cfg.target.minRatio)
    ensures Reachable(cfg, s) && s.record.job.state == SUCCEEDED && Holds(s.blobs, cfg.resultKey, [])
  {
    var init := Init(cfg, blobs, shared);
    var whole := WholeChordGets(cfg, blobs, shared, content, now);
    assert CanLoad(cfg, whole, 0, WholeTarget(cfg, content))
      && PagesDone(whole.plans[0].body.value) == cfg.maxPages by {
      InitGets(cfg, blobs, shared, whole);
      WholeChordLoads(cfg, content, whole, shared);
    }
    s := UnchangedRunSucceeds(cfg, whole, 0, 0, now, WholeTarget(cfg, content));
    GetsThen(cfg, init, whole, s);
    InitGets(cfg, blobs, shared, s);
  }

  // ----- the start of a job -----

  lemma CrawlKeepsStart(r: Record, threshold: int, now: int)
    requires r.job.startedAt.Some?
    ensures match CrawlTx(r, threshold, now)
            case Finished => true
            case Poisoned(r') => r'.job.startedAt == r.job.startedAt
            case Planned(r', _) => r'.job.startedAt == r.job.startedAt
  {
  }

  lemma OthersKeepStart(r: Record, letter: DeadLetter, o: Repo.Outcome, now: int)
    requires r.job.startedAt.Some?
    ensures Committed(r, CancelTx(r, now)).job.startedAt == r.job.startedAt
    ensures Committed(r, ParkTx(r, letter, now)).job.startedAt == r.job.startedAt
    ensures Committed(r, FinishTx(r, o, now)).job.startedAt == r.job.startedAt
  {
  }

  lemma FinisherKeepsStart(cfg: Config, s: State, f: nat, now: int)
    requires s.record.job.startedAt.Some?
    ensures FinishStep(cfg, s, f, now).record.job.startedAt == s.record.job.startedAt
  {
    if f in s.finalisers && s.finalisers[f].Uploaded? {
      var t := s.finalisers[f];
      var o := OutcomeOf(cfg.resultKey, t.emitted, t.suspect, t.pagesFailed, t.bytes);
      OthersKeepStart(s.record, DeadLetter("", "", map[]), o, now);
    }
  }

  lemma StartStays(cfg: Config, s: State, step: Step, s': State)
    requires Leads(cfg, s, step, s') && s.record.job.startedAt.Some?
    ensures s'.record.job.startedAt == s.record.job.startedAt
  {
    var anyLetter, anyOutcome := DeadLetter("", "", map[]), Repo.Outcome(SUCCEEDED, None, "", 0, 0);
    match step
    case DeliverCrawl(now) => CrawlKeepsStart(s.record, cfg.threshold, now);
    case Finish(f, now) => FinisherKeepsStart(cfg, s, f, now);
    case Cancel(now) => OthersKeepStart(s.record, anyLetter, anyOutcome, now);
    case Park(letter, now) => OthersKeepStart(s.record, letter, anyOutcome, now);
    case _ =>
  }

  /** Over any run, a job starts once. */
  lemma {:induction false} StartedOnce(cfg: Config, s: State, steps: seq<Step>)
    requires s.record.job.startedAt.Some?
    ensures Run(cfg, s, steps).record.job.startedAt == s.record.job.startedAt
  {
    if steps != [] {
      var front, last := steps[..|steps| - 1], steps[|steps| - 1];
      StartedOnce(cfg, s, front);
      ApplyLeads(cfg, Run(cfg, s, front), last);
      StartStays(cfg, Run(cfg, s, front), last, Run(cfg, s, steps));
    }
  }

  // ----- a cancelled job -----

  /** Cancelled, with no page task at work and no finaliser on its way. */
  ghost predicate AtRest(s: State) {
    && s.record.job.state == CANCELLED && s.finalisers == map[]
    && forall w :: w in s.workers ==> s.workers[w].Returning?
  }

  ghost predicate SameOwnObjects(cfg: Config, s: State, s': State) {
    forall key :: OwnKey(cfg, key) ==>
      (key in s'.blobs <==> key in s.blobs) && (key in s.blobs ==> s'.blobs[key] == s.blobs[key])
  }

  lemma RestStays(cfg: Config, s: State, step: Step, s': State)
    requires Leads(cfg, s, step, s') && AtRest(s)
    ensures AtRest(s') && s'.record == s.record && SameOwnObjects(cfg, s, s')
  {
  }

  /** Over any run, whatever is still delivered to it, a cancelled job at rest fetches
      nothing, records nothing and stores nothing. */
  lemma {:induction false} CancelledJobRests(cfg: Config, s: State, steps: seq<Step>)
    requires AtRest(s)
    ensures var s' := Run(cfg, s, steps);
            AtRest(s') && s'.record == s.record && SameOwnObjects(cfg, s, s')
  {
    if steps != [] {
      var front, last := steps[..|steps| - 1], steps[|steps| - 1];
      CancelledJobRests(cfg, s, front);
      ApplyLeads(cfg, Run(cfg, s, front), last);
      RestStays(cfg, Run(cfg, s, front), last, Run(cfg, s, steps));
    }
  }

  // ----- a job that no finaliser may touch -----

  /** Cancelled or parked, with no finaliser on its way. */
  ghost predicate Closed(s: State) {
    s.record.job.state in {CANCELLED, DEAD_LETTER} && s.finalisers == map[]
  }

  ghost predicate SameResult(cfg: Config, s: State, s': State) {
    && (cfg.resultKey in s'.blobs <==> cfg.resultKey in s.blobs)
    && (cfg.resultKey in s.blobs ==> s'.blobs[cfg.resultKey] == s.blobs[cfg.resultKey])
  }

  lemma ClosedStays(cfg: Config, s: State, step: Step, s': State)
    requires DistinctKeys(cfg) && Leads(cfg, s, step, s') && Closed(s)
    ensures Closed(s') && s'.record.job.state == s.record.job.state && SameResult(cfg, s, s')
    ensures s'.shared == s.shared || step.OthersSettle?
  {
    assert OwnKey(cfg, cfg.resultKey);
  }

  /** Over any run, however often its callbacks are delivered, such a job writes no result
      file and settles nothing, although its page tasks may go on. */
  lemma {:induction false} ClosedJobWritesNoResult(cfg: Config, s: State, steps: seq<Step>)
    requires DistinctKeys(cfg) && Closed(s)
    ensures var s' := Run(cfg, s, steps);
            && Closed(s') && s'.record.job.state == s.record.job.state && SameResult(cfg, s, s')
            && ((forall step :: step in steps ==> !step.OthersSettle?) ==> s'.shared == s.shared)
  {
    if steps != [] {
      var front, last := steps[..|steps| - 1], steps[|steps| - 1];
      assert last in steps && forall step :: step in front ==> step in steps;
      ClosedJobWritesNoResult(cfg, s, front);
      ApplyLeads(cfg, Run(cfg, s, front), last);
      ClosedStays(cfg, Run(cfg, s, front), last, Run(cfg, s, steps));
    }
  }

  // ----- a failure that comes too late -----

  lemma WrittenByCount(cfg: Config, s: State, f: nat, now: int, done: Settlement)
    requires s.record.job.state == RUNNING && f in s.finalisers && s.finalisers[f].Loaded?
    requires var t := s.finalisers[f];
             SettleTx(cfg.target, s.shared, t.rows, PagesDone(t.results), cfg.incremental) == Ok(done)
    ensures FinishStep(cfg, UploadStep(cfg, SettleStep(cfg, s, f), f), f, now).record.job.state
            == if done.suspect then SUSPECT else if s.finalisers[f].pagesFailed > 0 then PARTIAL else SUCCEEDED
  {
    WriteAlone(cfg, s, f, now, done);
  }

  /** A failure recorded after the callback has read the job does not count for its
      outcome: the job ends SUCCEEDED all the same, with a page counted as failed. */
  lemma LateFailureDoesNotCount(cfg: Config, s: State, w: nat, f: nat, k: nat, now: int, rows: seq<Row>,
                                done: Settlement)
    requires s.record.job.state == RUNNING && f !in s.finalisers && CanSettle(cfg, s, k, rows, done)
    requires w in s.workers && s.workers[w].Failing?
    ensures var failed := CommitFailureStep(LoadStep(cfg, AssembleStep(s, f, k), f), w);
            var s' := FinishStep(cfg, UploadStep(cfg, SettleStep(cfg, failed, f), f), f, now);
            && failed.record.job.pagesFailed == s.record.job.pagesFailed + 1
            && s'.record.job.pagesFailed == failed.record.job.pagesFailed
            && (!done.suspect && s.record.job.pagesFailed == 0 ==> s'.record.job.state == SUCCEEDED)
  {
    ReadAlone(cfg, s, f, k, rows);
    var failed := CommitFailureStep(LoadStep(cfg, AssembleStep(s, f, k), f), w);
    assert failed.finalisers[f] == Loaded(k, s.plans[k].body.value, s.record.job.pagesFailed, rows);
    WrittenByCount(cfg, failed, f, now, done);
    WriteAlone(cfg, failed, f, now, done);
  }
}
