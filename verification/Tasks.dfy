/** The page task (fetch_page, _record_failure in scrapequeue/pipeline/crawl.py) and
    finalise_job (scrapequeue/pipeline/export.py) from start to end, over the tables
    and the object store, and the runs of the crawl protocol that they are. */
module Tasks {
  import opened Wrappers
  import opened States
  import opened Repo
  import opened Export
  import opened Crawl
  import CrawlRedelivery
  import Dedupe
  import Drift

  /** How a page task ends: with a result for its chord, with a retry, or with an error. */
  datatype TaskEnd = Returned(result: PageResult) | Retried | Raised

  datatype Effect = Effect(record: Record, blobs: Blobs, end: TaskEnd)

  function FailedEffect(r: Record, blobs: Blobs, page: nat, retries: nat, errorType: string, error: string,
                        end: TaskEnd): Effect {
    Effect(PageFailed(r, page, Attempts(retries), errorType, error), blobs, end)
  }

  /** A page task that nothing interrupts. */
  function FetchEffect(r: Record, blobs: Blobs, key: string, page: nat, retries: nat, outcome: FetchOutcome): Effect {
    if r.job.state == CANCELLED then Effect(r, blobs, Returned(Skipped(page)))
    else
      match outcome
      case Rows(rows) =>
        Effect(PageRecorded(r, page, |rows|), blobs[key := PageBlob(rows)],
          Returned(Done(page, |rows|, key, page in r.pages)))
      case Permanent(error) => FailedEffect(r, blobs, page, retries, "PermanentFetchError", error,
        Returned(Failed(page)))
      case SoftTimeLimit(error) => FailedEffect(r, blobs, page, retries, "SoftTimeLimitExceeded", error, Raised)
      case Transient(errorType, error) =>
        if retries >= MAX_RETRIES then FailedEffect(r, blobs, page, retries, errorType, error, Returned(Failed(page)))
        else Effect(r, blobs, Retried)
      case Crash => Effect(r, blobs, Raised)
  }

  /** The steps of the crawl protocol that make up a page task; the ones that its
      outcome does not reach are not enabled and change nothing. */
  ghost function TaskRun(cfg: Config, s: State, w: nat, k: nat, page: nat, retries: nat, outcome: FetchOutcome): State {
    var fetched := FetchStep(cfg, StartPageStep(s, w, k, page, retries), w, outcome);
    CommitFailureStep(CommitPageStep(cfg, PutPageStep(cfg, fetched, w), w), w)
  }

  ghost predicate Shows(s: State, w: nat, k: nat, effect: Effect) {
    && s.record == effect.record && s.blobs == effect.blobs
    && (if effect.end.Returned? then w in s.workers && s.workers[w] == Returning(k, effect.end.result)
      else w !in s.workers)
  }

  lemma FetchedRuns(cfg: Config, s: State, w: nat)
    requires w in s.workers && s.workers[w].Fetched?
    ensures var t := s.workers[w];
            var key := cfg.pageKey(t.page);
            Shows(CommitFailureStep(CommitPageStep(cfg, PutPageStep(cfg, s, w), w), w), w, t.plan,
                  Effect(PageRecorded(s.record, t.page, |t.rows|), s.blobs[key := PageBlob(t.rows)],
                         Returned(Done(t.page, |t.rows|, key, t.page in s.record.pages))))
  {
    assert PutPageStep(cfg, s, w).workers[w] == Stored(s.workers[w].plan, s.workers[w].page, s.workers[w].rows);
  }

  lemma FailingRuns(cfg: Config, s: State, w: nat)
    requires w in s.workers && s.workers[w].Failing?
    ensures var t := s.workers[w];
            Shows(CommitFailureStep(CommitPageStep(cfg, PutPageStep(cfg, s, w), w), w), w, t.plan,
                  FailedEffect(s.record, s.blobs, t.page, t.retries, t.errorType, t.error,
                               if t.reports then Returned(Failed(t.page)) else Raised))
  {
  }

  lemma OtherwiseNothingRuns(cfg: Config, s: State, w: nat)
    requires w in s.workers ==> s.workers[w].Returning?
    ensures CommitFailureStep(CommitPageStep(cfg, PutPageStep(cfg, s, w), w), w) == s
  {
  }

  /** A page task is a run of the crawl protocol. */
  lemma TaskIsRun(cfg: Config, s: State, w: nat, k: nat, page: nat, retries: nat, outcome: FetchOutcome)
    requires w !in s.workers && k < |s.plans| && (page, retries) in s.plans[k].messages
    requires outcome.Rows? ==> cfg.mayYield(page, outcome.rows)
    ensures Shows(TaskRun(cfg, s, w, k, page, retries, outcome), w, k,
                  FetchEffect(s.record, s.blobs, cfg.pageKey(page), page, retries, outcome))
  {
    var started := StartPageStep(s, w, k, page, retries);
    var fetched := FetchStep(cfg, started, w, outcome);
    if s.record.job.state == CANCELLED {
      OtherwiseNothingRuns(cfg, fetched, w);
    } else if outcome.Rows? {
      FetchedRuns(cfg, fetched, w);
    } else if w in fetched.workers {
      FailingRuns(cfg, fetched, w);
    } else {
      OtherwiseNothingRuns(cfg, fetched, w);
    }
  }

  datatype FinaliseEnd =
    | Ignored(state: JobState) | MissingObject(key: string) | SnapshotRefused | RolledBack
    | Finalised(outcome: Repo.Outcome)

  datatype FinaliseEffect = FinaliseEffect(record: Record, blobs: Blobs, shared: Shared, end: FinaliseEnd)

  /** A finaliser that nothing interrupts. */
  function Finalise(r: Record, blobs: Blobs, shared: Shared, target: Target, incremental: bool, resultKey: string,
                    size: seq<Row> -> nat, results: seq<PageResult>, now: int): FinaliseEffect
  {
    if r.job.state in {CANCELLED, DEAD_LETTER} then FinaliseEffect(r, blobs, shared, Ignored(r.job.state))
    else
      match LoadRows(results, blobs)
      case Err(key) => FinaliseEffect(r, blobs, shared, MissingObject(key))
      case Ok(loaded) =>
        var rows := Dedupe.Deduped(loaded, target.rowKey);
        match SettleTx(target, shared, rows, PagesDone(results), incremental)
        case Err(_) => FinaliseEffect(r, blobs, shared, SnapshotRefused)
        case Ok(done) =>
          var o := OutcomeOf(resultKey, done.emitted, done.suspect, r.job.pagesFailed, size(done.emitted));
          var tx := FinishTx(r, o, now);
          FinaliseEffect(Committed(r, tx), blobs[resultKey := ResultBlob(done.emitted)], done.shared,
                         if tx.Ok? then Finalised(o) else RolledBack)
  }

  ghost predicate Leaves(s: State, effect: FinaliseEffect) {
    s.record == effect.record && s.blobs == effect.blobs && s.shared == effect.shared
  }

  lemma NothingFinalises(cfg: Config, s: State, f: nat, now: int)
    requires f !in s.finalisers
    ensures FinishStep(cfg, UploadStep(cfg, SettleStep(cfg, s, f), f), f, now) == s
  {
  }

  lemma RefusedSettles(cfg: Config, s: State, f: nat, now: int)
    requires f in s.finalisers && s.finalisers[f].Loaded?
    requires var t := s.finalisers[f];
             SettleTx(cfg.target, s.shared, t.rows, PagesDone(t.results), cfg.incremental).Err?
    ensures var s' := FinishStep(cfg, UploadStep(cfg, SettleStep(cfg, s, f), f), f, now);
            s'.record == s.record && s'.blobs == s.blobs && s'.shared == s.shared
  {
  }

  lemma UnreadFinalises(cfg: Config, s: State, f: nat, k: nat, now: int)
    requires f !in s.finalisers && k < |s.plans| && s.plans[k].body.Some?
    requires s.record.job.state in {CANCELLED, DEAD_LETTER} || LoadRows(s.plans[k].body.value, s.blobs).Err?
    ensures var s' := CrawlRedelivery.Finalised(cfg, s, f, k, now);
            s'.record == s.record && s'.blobs == s.blobs && s'.shared == s.shared
  {
    var read := LoadStep(cfg, AssembleStep(s, f, k), f);
    assert f !in read.finalisers;
    NothingFinalises(cfg, read, f, now);
  }

  lemma ReadFinalises(cfg: Config, s: State, f: nat, k: nat, now: int, rows: seq<Row>)
    requires f !in s.finalisers && CrawlRedelivery.CanLoad(cfg, s, k, rows)
            && s.record.job.state !in {CANCELLED, DEAD_LETTER}
    requires SettleTx(cfg.target, s.shared, rows, PagesDone(s.plans[k].body.value), cfg.incremental).Err?
    ensures var s' := CrawlRedelivery.Finalised(cfg, s, f, k, now);
            s'.record == s.record && s'.blobs == s.blobs && s'.shared == s.shared
  {
    CrawlRedelivery.ReadAlone(cfg, s, f, k, rows);
    RefusedSettles(cfg, LoadStep(cfg, AssembleStep(s, f, k), f), f, now);
  }

  /** So is a finaliser. */
  lemma FinaliserIsRun(cfg: Config, s: State, f: nat, k: nat, now: int)
    requires f !in s.finalisers && k < |s.plans| && s.plans[k].body.Some?
    ensures Leaves(CrawlRedelivery.Finalised(cfg, s, f, k, now),
                   Finalise(s.record, s.blobs, s.shared, cfg.target, cfg.incremental, cfg.resultKey, cfg.size,
                     s.plans[k].body.value, now))
  {
    var results := s.plans[k].body.value;
    if s.record.job.state in {CANCELLED, DEAD_LETTER} || LoadRows(results, s.blobs).Err? {
      UnreadFinalises(cfg, s, f, k, now);
    } else {
      var rows := Dedupe.Deduped(LoadRows(results, s.blobs).value, cfg.target.rowKey);
      match SettleTx(cfg.target, s.shared, rows, PagesDone(results), cfg.incremental)
      case Err(_) => ReadFinalises(cfg, s, f, k, now, rows);
      case Ok(done) => CrawlRedelivery.FinaliserAlone(cfg, s, f, k, now, rows, done);
    }
  }

  /** A worker process: its database, object store and shared tables. */
  class Worker {
    const db: Database
    const store: ObjectStore
    const snapshots: Dedupe.SnapshotTable
    const baselines: Drift.DriftBaselines

    constructor (db: Database, store: ObjectStore, snapshots: Dedupe.SnapshotTable, baselines: Drift.DriftBaselines)
      ensures this.db == db && this.store == store && this.snapshots == snapshots && this.baselines == baselines
    {
      this.db, this.store, this.snapshots, this.baselines := db, store, snapshots, baselines;
    }

    method RecordFailure(id: string, page: nat, retries: nat, errorType: string, error: string)
      requires id in db.records
      modifies db
      ensures db.records == old(db.records)[id := PageFailed(old(db.records)[id], page, Attempts(retries), errorType,
              error)]
    {
      db.RecordFailedPage(id, page, retries + 1, errorType, error);
    }

    /** `outcome` is what the fetcher does with the page. */
    method FetchPage(id: string, page: nat, retries: nat, outcome: FetchOutcome) returns (end: TaskEnd)
      requires id in db.records
      modifies db, store
      ensures var effect := FetchEffect(old(db.records)[id], old(store.blobs), PageKey(id, page), page, retries,
              outcome);
              && end == effect.end && store.blobs == effect.blobs
              && db.records == old(db.records)[id := effect.record]
    {
      if db.records[id].job.state == CANCELLED {
        return Returned(Skipped(page));
      }
      match outcome {
        case Permanent(error) =>
          RecordFailure(id, page, retries, "PermanentFetchError", error);
          return Returned(Failed(page));
        case SoftTimeLimit(error) =>
          RecordFailure(id, page, retries, "SoftTimeLimitExceeded", error);
          return Raised;
        case Transient(errorType, error) =>
          if retries >= MAX_RETRIES {
            RecordFailure(id, page, retries, errorType, error);
            return Returned(Failed(page));
          }
          return Retried;
        case Crash =>
          return Raised;
        case Rows(rows) =>
          var key := PageKey(id, page);
          store.Put(key, PageBlob(rows));
          var inserted := db.RecordPage(id, page, |rows|);
          end := Returned(Done(page, |rows|, key, !inserted));
      }
    }

    method FinaliseJob(id: string, target: string, results: seq<PageResult>, incremental: bool, format: string,
                       size: seq<Row> -> nat, now: int)
      returns (end: FinaliseEnd)
      requires id in db.records
      modifies db, store, snapshots, baselines
      ensures var t := Target(snapshots.rowKey, snapshots.hash, baselines.minRatio);
              var shared := Shared(old(snapshots.stored), old(baselines.Get(target)));
              var effect := Finalise(old(db.records)[id], old(store.blobs), shared, t, incremental,
                ResultKey(id, format), size, results, now);
              && end == effect.end && store.blobs == effect.blobs
              && db.records == old(db.records)[id := effect.record]
              && Shared(snapshots.stored, baselines.Get(target)) == effect.shared
              && baselines.table - {target} == old(baselines.table) - {target}
    {
      var job := db.records[id].job;
      if job.state in {CANCELLED, DEAD_LETTER} {
        return Ignored(job.state);
      }
      var loaded := store.LoadRows(results);
      if loaded.Err? {
        return MissingObject(loaded.error);
      }
      var rows, _ := Dedupe.Dedupe(loaded.value, snapshots.rowKey);
      var settled := SettleRun(snapshots, baselines, target, rows, results, incremental);
      if settled.Err? {
        return SnapshotRefused;
      }
      var (emitted, verdict) := settled.value;
      var key := ResultKey(id, format);
      store.Put(key, ResultBlob(emitted));
      var bytes := size(emitted);
      var state, error := SUCCEEDED, None;
      if verdict.suspect {
        state, error := SUSPECT, Some(DRIFT_REASON);
      } else if job.pagesFailed > 0 {
        state, error := PARTIAL, Some(FailureNote(job.pagesFailed));
      }
      var o := Repo.Outcome(state, error, key, bytes, |emitted|);
      assert o == OutcomeOf(key, emitted, verdict.suspect, job.pagesFailed, bytes);
      var r := db.FinishJob(id, o, now);
      end := if r.Ok? then Finalised(o) else RolledBack;
    }
  }
}
