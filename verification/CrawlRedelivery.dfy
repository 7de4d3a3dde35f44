/** A finaliser that nothing disturbs, and what a callback delivered again does to the
    result file. */
module CrawlRedelivery {
  import opened Wrappers
  import opened States
  import opened Repo
  import opened Export
  import opened Crawl
  import opened CrawlInvariant
  import opened CrawlRuns
  import Dedupe

  // ----- one finaliser, undisturbed -----

  /** assemble_job from its first to its last step with nothing in between. */
  ghost function Finalised(cfg: Config, s: State, f: nat, k: nat, now: int): State {
    FinishStep(cfg, UploadStep(cfg, SettleStep(cfg, LoadStep(cfg, AssembleStep(s, f, k), f), f), f), f, now)
  }

  ghost predicate CanLoad(cfg: Config, s: State, k: nat, rows: seq<Row>) {
    && k < |s.plans| && s.plans[k].body.Some?
    && LoadRows(s.plans[k].body.value, s.blobs).Ok?
    && rows == Dedupe.Deduped(LoadRows(s.plans[k].body.value, s.blobs).value, cfg.target.rowKey)
  }

  /** The rows a finaliser of plan k would settle now, and what settling them gives. */
  ghost predicate CanSettle(cfg: Config, s: State, k: nat, rows: seq<Row>, done: Settlement) {
    && CanLoad(cfg, s, k, rows)
    && SettleTx(cfg.target, s.shared, rows, PagesDone(s.plans[k].body.value), cfg.incremental) == Ok(done)
  }

  /** `s'` is `s` up to its finalisers. */
  ghost predicate OnlyFinalisers(s: State, s': State, finalisers: map<nat, Finaliser>) {
    (&& s'.record == s.record && s'.plans == s.plans && s'.workers == s.workers && s'.blobs == s.blobs
      && s'.shared == s.shared
     && s'.finalisers == finalisers) == true
  }

  lemma AssembleAlone(cfg: Config, s: State, f: nat, k: nat)
    requires f !in s.finalisers && s.record.job.state !in {CANCELLED, DEAD_LETTER} && k < |s.plans|
            && s.plans[k].body.Some?
    ensures OnlyFinalisers(s, AssembleStep(s, f, k),
            s.finalisers[f := Begun(k, s.plans[k].body.value, s.record.job.pagesFailed)])
  {
  }

  lemma LoadAlone(cfg: Config, s: State, s1: State, f: nat, k: nat, rows: seq<Row>)
    requires CanLoad(cfg, s, k, rows)
    requires OnlyFinalisers(s, s1, s.finalisers[f := Begun(k, s.plans[k].body.value, s.record.job.pagesFailed)])
    ensures OnlyFinalisers(s, LoadStep(cfg, s1, f),
            s.finalisers[f := Loaded(k, s.plans[k].body.value, s.record.job.pagesFailed, rows)])
  {
    assert s1.finalisers[f] == Begun(k, s.plans[k].body.value, s.record.job.pagesFailed);
  }

  lemma ReadAlone(cfg: Config, s: State, f: nat, k: nat, rows: seq<Row>)
    requires f !in s.finalisers && s.record.job.state !in {CANCELLED, DEAD_LETTER} && CanLoad(cfg, s, k, rows)
    ensures OnlyFinalisers(s, LoadStep(cfg, AssembleStep(s, f, k), f),
                           s.finalisers[f := Loaded(k, s.plans[k].body.value, s.record.job.pagesFailed, rows)])
  {
    AssembleAlone(cfg, s, f, k);
    LoadAlone(cfg, s, AssembleStep(s, f, k), f, k, rows);
  }

  lemma SettleAlone(cfg: Config, s: State, f: nat, done: Settlement)
    requires f in s.finalisers && s.finalisers[f].Loaded?
    requires var t := s.finalisers[f];
             SettleTx(cfg.target, s.shared, t.rows, PagesDone(t.results), cfg.incremental) == Ok(done)
    ensures var t, s' := s.finalisers[f], SettleStep(cfg, s, f);
            && s'.finalisers == s.finalisers[f := Settled(t.plan, t.results, t.pagesFailed, t.rows, done.emitted,
              done.suspect)]
            && s'.record == s.record && s'.plans == s.plans && s'.blobs == s.blobs && s'.shared == done.shared
            && s'.workers == s.workers
  {
  }

  lemma UploadAlone(cfg: Config, s: State, f: nat, now: int)
    requires f in s.finalisers && s.finalisers[f].Settled?
    ensures var t, s' := s.finalisers[f], FinishStep(cfg, UploadStep(cfg, s, f), f, now);
            var o := OutcomeOf(cfg.resultKey, t.emitted, t.suspect, t.pagesFailed, cfg.size(t.emitted));
            && s'.blobs == s.blobs[cfg.resultKey := ResultBlob(t.emitted)]
            && s'.record == Committed(s.record, FinishTx(s.record, o, now))
            && s'.shared == s.shared && s'.plans == s.plans && s'.finalisers == s.finalisers - {f}
            && s'.workers == s.workers
  {
    var t, s1 := s.finalisers[f], UploadStep(cfg, s, f);
    assert s1.finalisers[f] == Uploaded(t.plan, t.results, t.pagesFailed, t.rows, t.emitted, t.suspect,
      cfg.size(t.emitted));
    assert s1.finalisers - {f} == s.finalisers - {f};
  }

  lemma WriteAlone(cfg: Config, s: State, f: nat, now: int, done: Settlement)
    requires f in s.finalisers && s.finalisers[f].Loaded?
    requires var t := s.finalisers[f];
             SettleTx(cfg.target, s.shared, t.rows, PagesDone(t.results), cfg.incremental) == Ok(done)
    ensures var s' := FinishStep(cfg, UploadStep(cfg, SettleStep(cfg, s, f), f), f, now);
            var o := OutcomeOf(cfg.resultKey, done.emitted, done.suspect, s.finalisers[f].pagesFailed,
              cfg.size(done.emitted));
            && s'.blobs == s.blobs[cfg.resultKey := ResultBlob(done.emitted)]
            && s'.record == Committed(s.record, FinishTx(s.record, o, now))
            && s'.shared == done.shared && s'.plans == s.plans && s'.finalisers == s.finalisers - {f}
            && s'.workers == s.workers
  {
    SettleAlone(cfg, s, f, done);
    UploadAlone(cfg, SettleStep(cfg, s, f), f, now);
    assert SettleStep(cfg, s, f).finalisers - {f} == s.finalisers - {f};
  }

  /** What the job's row and the object store hold after an undisturbed finaliser. */
  ghost predicate Wrote(cfg: Config, s: State, s': State, now: int, done: Settlement) {
    var o := OutcomeOf(cfg.resultKey, done.emitted, done.suspect, s.record.job.pagesFailed, cfg.size(done.emitted));
    && s'.blobs == s.blobs[cfg.resultKey := ResultBlob(done.emitted)]
    && s'.record == Committed(s.record, FinishTx(s.record, o, now))
    && s'.shared == done.shared && s'.plans == s.plans && s'.finalisers == s.finalisers && s'.workers == s.workers
  }

  lemma FinaliserAlone(cfg: Config, s: State, f: nat, k: nat, now: int, rows: seq<Row>, done: Settlement)
    requires f !in s.finalisers && s.record.job.state !in {CANCELLED, DEAD_LETTER} && CanSettle(cfg, s, k, rows, done)
    ensures Wrote(cfg, s, Finalised(cfg, s, f, k, now), now, done)
  {
    ReadAlone(cfg, s, f, k, rows);
    WrittenAfterRead(cfg, s, LoadStep(cfg, AssembleStep(s, f, k), f), f, k, now, rows, done);
  }

  lemma WrittenAfterRead(cfg: Config, s: State, mid: State, f: nat, k: nat, now: int, rows: seq<Row>, done: Settlement)
    requires f !in s.finalisers && CanSettle(cfg, s, k, rows, done)
    requires OnlyFinalisers(s, mid, s.finalisers[f := Loaded(k, s.plans[k].body.value, s.record.job.pagesFailed, rows)])
    ensures Wrote(cfg, s, FinishStep(cfg, UploadStep(cfg, SettleStep(cfg, mid, f), f), f, now), now, done)
  {
    WriteAlone(cfg, mid, f, now, done);
    assert mid.finalisers - {f} == s.finalisers;
  }

  // ----- the callback delivered again -----

  /** The same rows settle again, and an incremental diff against them is empty. */
  lemma SettleAgain(t: Target, shared: Shared, rows: seq<Row>, pagesDone: nat, incremental: bool)
    requires SettleTx(t, shared, rows, pagesDone, incremental).Ok?
    ensures var first := SettleTx(t, shared, rows, pagesDone, incremental).value;
            var second := SettleTx(t, first.shared, rows, pagesDone, incremental);
            && second.Ok?
            && second.value.emitted == (if incremental then [] else first.emitted)
  {
    var key := Dedupe.KeyBy(t.rowKey);
    Dedupe.StoreSucceedsIffDistinct(shared.snapshot, rows, key, t.hash);
    Dedupe.DiffAfterStoreIsEmpty(shared.snapshot, rows, key, t.hash);
    var first := SettleTx(t, shared, rows, pagesDone, incremental).value;
    Dedupe.StoreSucceedsIffDistinct(first.shared.snapshot, rows, key, t.hash);
  }

  lemma ResultStoreKeepsPages(cfg: Config, s: State, k: nat, rows: seq<Row>)
    requires DistinctKeys(cfg) && Inv(cfg, s) && k < |s.plans| && s.plans[k].body.Some?
    ensures var results := s.plans[k].body.value;
            LoadRows(results, s.blobs[cfg.resultKey := ResultBlob(rows)]) == LoadRows(results, s.blobs)
  {
    var results := s.plans[k].body.value;
    assert PlanOk(cfg, s, s.plans[k]);
    SortSorts(results);
    SameMembers(SortByPage(results), results);
    forall r | r in results && r.Done?
      ensures r.key != cfg.resultKey
    {
      assert ResultOk(cfg, s, s.plans[k].pages, r);
    }
    SameObjects(SortByPage(results), s.blobs, s.blobs[cfg.resultKey := ResultBlob(rows)]);
  }

  lemma {:induction false} SameObjects(results: seq<PageResult>, blobs: Blobs, blobs': Blobs)
    requires forall r :: r in results && r.Done? ==>
            (r.key in blobs <==> r.key in blobs') && (r.key in blobs ==> blobs'[r.key] == blobs[r.key])
    ensures RowsOf(results, blobs') == RowsOf(results, blobs)
  {
    if results != [] {
      assert results[|results| - 1] in results;
      assert forall r :: r in results[..|results| - 1] ==> r in results;
      SameObjects(results[..|results| - 1], blobs, blobs');
    }
  }

  ghost predicate Holds(blobs: Blobs, key: string, rows: seq<Row>) {
    key in blobs && blobs[key] == ResultBlob(rows)
  }

  lemma SettlesAgain(cfg: Config, s: State, once: State, k: nat, now: int, rows: seq<Row>, done: Settlement)
      returns (again: Settlement)
    requires DistinctKeys(cfg) && Inv(cfg, s) && CanSettle(cfg, s, k, rows, done) && Wrote(cfg, s, once, now, done)
    ensures CanSettle(cfg, once, k, rows, again) && again.emitted == if cfg.incremental then [] else done.emitted
  {
    var pagesDone := PagesDone(s.plans[k].body.value);
    SettleAgain(cfg.target, s.shared, rows, pagesDone, cfg.incremental);
    ResultStoreKeepsPages(cfg, s, k, done.emitted);
    again := SettleTx(cfg.target, done.shared, rows, pagesDone, cfg.incremental).value;
  }

  lemma RunningJobFinishes(cfg: Config, s: State, s': State, now: int, done: Settlement)
    requires s.record.job.state == RUNNING && Wrote(cfg, s, s', now, done)
    ensures s'.record.job.state in FINISHED
    ensures done.suspect ==> s'.record.job.state == SUSPECT
  {
  }

  /** `once` is finalised with these rows; in `twice` its row is the same, and its file
      too exactly if the job is not incremental or there were no rows. */
  ghost predicate WrittenTwice(cfg: Config, once: State, twice: State, emitted: seq<Row>) {
    && once.record.job.state in FINISHED && Holds(once.blobs, cfg.resultKey, emitted)
    && twice.record == once.record
    && Holds(twice.blobs, cfg.resultKey, if cfg.incremental then [] else emitted)
    && (twice.blobs == once.blobs <==> !cfg.incremental || emitted == [])
  }

  lemma SecondWrite(cfg: Config, s: State, once: State, twice: State, now: int, later: int, done: Settlement,
                    again: Settlement)
    requires s.record.job.state == RUNNING && Wrote(cfg, s, once, now, done) && Wrote(cfg, once, twice, later, again)
    requires again.emitted == if cfg.incremental then [] else done.emitted
    ensures WrittenTwice(cfg, once, twice, done.emitted)
  {
    RunningJobFinishes(cfg, s, once, now, done);
    FinishedJobStays(once.record,
      OutcomeOf(cfg.resultKey, again.emitted, again.suspect, once.record.job.pagesFailed, cfg.size(again.emitted)),
        later);
  }

  /** A callback delivered again right after the job was finalised leaves the job row
      alone but writes the result file again: with the same rows if the job is not
      incremental, with no rows if it is.  So the file survives exactly when the job is
      not incremental or had nothing to emit. */
  lemma RedeliveredCallback(cfg: Config, s: State, f: nat, g: nat, k: nat, now: int, later: int, rows: seq<Row>,
                            done: Settlement)
    requires DistinctKeys(cfg) && Inv(cfg, s) && s.record.job.state == RUNNING && f !in s.finalisers
            && g !in s.finalisers
    requires CanSettle(cfg, s, k, rows, done)
    ensures var once := Finalised(cfg, s, f, k, now);
            WrittenTwice(cfg, once, Finalised(cfg, once, g, k, later), done.emitted)
  {
    var once := Finalised(cfg, s, f, k, now);
    FinaliserAlone(cfg, s, f, k, now, rows, done);
    SecondDelivery(cfg, s, once, g, k, now, later, rows, done);
  }

  lemma SecondDelivery(cfg: Config, s: State, once: State, g: nat, k: nat, now: int, later: int, rows: seq<Row>,
                       done: Settlement)
    requires DistinctKeys(cfg) && Inv(cfg, s) && s.record.job.state == RUNNING && g !in s.finalisers
    requires CanSettle(cfg, s, k, rows, done) && Wrote(cfg, s, once, now, done)
    ensures WrittenTwice(cfg, once, Finalised(cfg, once, g, k, later), done.emitted)
  {
    RunningJobFinishes(cfg, s, once, now, done);
    var again := SettlesAgain(cfg, s, once, k, now, rows, done);
    FinaliserAlone(cfg, once, g, k, later, rows, again);
    SecondWrite(cfg, s, once, Finalised(cfg, once, g, k, later), now, later, done, again);
  }

  lemma FinishedJobStays(r: Record, o: Outcome, now: int)
    requires r.job.state in TERMINAL_STATES
    ensures Committed(r, FinishTx(r, o, now)) == r
  {
  }
}
