/** What the result file of a resumed job holds: the pages of one chord, which is the
    whole target exactly if nothing was recorded when that chord was planned. */
module CrawlResume {
  import opened Wrappers
  import opened States
  import opened Repo
  import opened Export
  import opened Crawl
  import opened CrawlInvariant
  import opened CrawlRuns
  import opened CrawlOutput
  import opened CrawlRedelivery
  import opened CrawlPaths
  import Dedupe
  import Drift

  // ----- exactly when the file covers the target -----

  predicate Covers(pages: set<nat>, n: nat) {
    forall p :: 1 <= p <= n ==> p in pages
  }

  /** What a delivery of the crawl message plans, and what the plan remembers. */
  lemma PlanIsTheRest(cfg: Config, s: State, now: int)
    requires CrawlTx(s.record, cfg.threshold, now).Planned? && s.record.job.maxPages == cfg.maxPages
    ensures var s' := DeliverCrawlStep(cfg, s, now);
            && |s'.plans| == |s.plans| + 1
            && s'.plans[|s.plans|].done == s.record.pages.Keys
            && forall p :: p in s'.plans[|s.plans|].pages <==> 1 <= p <= cfg.maxPages && p !in s.record.pages
  {
    PlanIsMissingPages(s.record.pages.Keys, cfg.maxPages);
  }

  lemma FullPlanIff(done: set<nat>, n: nat)
    requires InRange(done, n)
    ensures PagesToFetch(done, n) == PagesToFetch({}, n) <==> done == {}
  {
    PlanIsMissingPages(done, n);
    PlanIsMissingPages({}, n);
    if p :| p in done {
      assert p in PagesToFetch({}, n) && p !in PagesToFetch(done, n);
    }
  }

  /** A completed chord covers the target exactly if it is clean and planned the whole
      target, which it did exactly if nothing was recorded when it was planned. */
  lemma ChordCoversIff(cfg: Config, s: State, plan: Plan)
    requires PlanOk(cfg, s, plan) && plan.body.Some? && CountersOk(cfg, s.record)
    ensures Covers(KeyedPages(plan.body.value), cfg.maxPages) <==> CleanBody(plan) && plan.done == {}
    ensures plan.pages == PagesToFetch({}, cfg.maxPages) <==> plan.done == {}
  {
    FullPlanIff(plan.done, cfg.maxPages);
    PlanIsMissingPages(plan.done, cfg.maxPages);
    if CleanBody(plan) && plan.done == {} {
      CleanChordCovers(cfg, s, plan);
    } else if p :| p in plan.done {
      assert 1 <= p <= cfg.maxPages && p !in plan.pages && p !in KeyedPages(plan.body.value);
    } else {
      var r :| r in plan.body.value && !r.Done?;
      KeyedIffDone(plan.body.value, r);
      assert 1 <= r.page <= cfg.maxPages;
    }
  }

  lemma CleanChordCovers(cfg: Config, s: State, plan: Plan)
    requires PlanOk(cfg, s, plan) && CleanBody(plan) && plan.done == {}
    ensures Covers(KeyedPages(plan.body.value), cfg.maxPages)
  {
    PlanIsMissingPages({}, cfg.maxPages);
    forall p | 1 <= p <= cfg.maxPages
      ensures p in KeyedPages(plan.body.value)
    {
      assert p in plan.pages;
      var r :| r in plan.body.value && r.page == p;
    }
  }

  lemma PlanInReach(cfg: Config, s: State, k: nat)
    requires Reachable(cfg, s) && k < |s.plans|
    ensures PlanOk(cfg, s, s.plans[k]) && CountersOk(cfg, s.record)
  {
    ReachableKeepsInv(cfg, s);
  }

  /** The result file in any reachable state, however often the job was resumed: it is
      the output of one chord k, and covers the target iff chord k has no failed or
      skipped page and planned all of it, that is, iff it is clean and nothing was
      recorded when it was planned; and then it is the whole target. */
  lemma ResultCoversTargetIff(cfg: Config, content: nat -> seq<Row>, s: State) returns (k: nat)
    requires Reachable(cfg, s) && Fixed(cfg, content) && !cfg.incremental && HasResult(cfg, s.blobs)
    ensures k < |s.plans| && s.plans[k].body.Some?
    ensures s.blobs[cfg.resultKey].rows == Output(cfg, content, s.plans[k])
    ensures var covers, plan := Covers(KeyedPages(s.plans[k].body.value), cfg.maxPages), s.plans[k];
            && (covers <==> CleanBody(plan) && plan.pages == PagesToFetch({}, cfg.maxPages))
            && (covers <==> CleanBody(plan) && plan.done == {})
            && (covers ==>
                  s.blobs[cfg.resultKey].rows == Dedupe.Deduped(Loop(cfg.maxPages, content), cfg.target.rowKey))
  {
    EveryFinaliserReadsSequentially(cfg, content, s);
    k :| 0 <= k < |s.plans| && s.plans[k].body.Some? && s.blobs[cfg.resultKey].rows == Output(cfg, content, s.plans[k]);
    PlanInReach(cfg, s, k);
    ChordCoversIff(cfg, s, s.plans[k]);
    if s.plans[k].done == {} && CleanBody(s.plans[k]) {
      SequentialIsLoop(cfg.maxPages, KeyedPages(s.plans[k].body.value), content);
    }
  }

  // ----- a job that is resumed after its first page -----

  /** A job of two pages whose crawl message comes again after page 1 was recorded: two
      chords, [1, 2] with page 1 answered, and [2]. */
  ghost predicate TwoChords(cfg: Config, s: State, shared: Shared, rows: nat) {
    && s.record.job.state == RUNNING && s.record.pages == map[1 := rows] && s.record.job.pagesFailed == 0
    && s.workers == map[] && s.finalisers == map[] && s.shared == shared
    && |s.plans| == 2
    && s.plans[0].pages == [1, 2] && s.plans[0].returned == {Done(1, rows, cfg.pageKey(1), false)}
    && s.plans[1].pages == [2] && s.plans[1].done == {1} && s.plans[1].returned == {}
    && forall k :: 0 <= k < 2 ==> s.plans[k].dispatched && s.plans[k].body.None? && (2, 0) in s.plans[k].messages
  }

  lemma TwoPages()
    ensures PagesToFetch({}, 2) == [1, 2] && PagesToFetch({1}, 2) == [2]
  {
    assert PagesToFetch({}, 1) == [1] && PagesToFetch({1}, 1) == [];
  }

  /** Before the message comes again. */
  ghost predicate OneChord(cfg: Config, s: State, shared: Shared, rows: nat) {
    && s.record.job == Created(2).job.(state := RUNNING, attempts := 1, pagesTotal := Some(2),
                                       startedAt := s.record.job.startedAt, pagesDone := 1, rows := rows)
    && s.record.pages == map[1 := rows]
    && s.workers == map[] && s.finalisers == map[] && s.shared == shared
    && |s.plans| == 1 && s.plans[0].pages == [1, 2] && s.plans[0].returned == {Done(1, rows, cfg.pageKey(1), false)}
    && s.plans[0].dispatched && s.plans[0].body.None? && (2, 0) in s.plans[0].messages
  }

  lemma FirstCrawl(threshold: int, now: int)
    ensures Created(2).pages.Keys == {}
    ensures var tx := CrawlTx(Created(2), threshold, now);
            && tx.Planned? && tx.pending == [1, 2] && tx.record.pages == map[]
            && tx.record.job == Created(2).job.(state := RUNNING, attempts := 1, pagesTotal := Some(2),
                                                startedAt := Some(now))
  {
    assert Created(2).pages.Keys == {};
    TwoPages();
  }

  lemma FirstChordGets(cfg: Config, blobs: Blobs, shared: Shared, now: int) returns (s: State)
    requires cfg.maxPages == 2
    ensures Gets(cfg, Init(cfg, blobs, shared), s)
    ensures s.record.pages == map[] && s.workers == map[] && s.finalisers == map[] && s.shared == shared
    ensures s.record.job == Created(2).job.(state := RUNNING, attempts := 1, pagesTotal := Some(2),
                                            startedAt := Some(now))
    ensures |s.plans| == 1 && s.plans[0] == Plan([1, 2], {}, true, {(1, 0), (2, 0)}, {}, None)
  {
    FirstCrawl(cfg.threshold, now);
    s := CrawlGets(cfg, Init(cfg, blobs, shared), now);
    assert (set p | p in [1, 2] :: (p, 0)) == {(1, 0), (2, 0)};
  }

  lemma FirstPageGets(cfg: Config, blobs: Blobs, shared: Shared, rows: seq<Row>, now: int) returns (s: State)
    requires cfg.maxPages == 2 && cfg.mayYield(1, rows)
    ensures Gets(cfg, Init(cfg, blobs, shared), s) && OneChord(cfg, s, shared, |rows|)
  {
    var mid := FirstChordGets(cfg, blobs, shared, now);
    s := PageGets(cfg, mid, 0, 0, 1, rows);
    GetsThen(cfg, Init(cfg, blobs, shared), mid, s);
  }

  lemma SecondChordGets(cfg: Config, s: State, shared: Shared, rows: nat, now: int) returns (s': State)
    requires OneChord(cfg, s, shared, rows) && cfg.threshold >= 2
    ensures Gets(cfg, s, s') && TwoChords(cfg, s', shared, rows)
  {
    assert s.record.pages.Keys == {1};
    TwoPages();
    s' := CrawlGets(cfg, s, now);
  }

  lemma ResumedGets(cfg: Config, blobs: Blobs, shared: Shared, rows: seq<Row>, now: int) returns (s: State)
    requires cfg.maxPages == 2 && cfg.threshold >= 2 && cfg.mayYield(1, rows)
    ensures Gets(cfg, Init(cfg, blobs, shared), s) && TwoChords(cfg, s, shared, |rows|)
  {
    var mid := FirstPageGets(cfg, blobs, shared, rows, now);
    s := SecondChordGets(cfg, mid, shared, |rows|, now);
    GetsThen(cfg, Init(cfg, blobs, shared), mid, s);
  }

  /** Page 2 is fetched for chord k, which completes. */
  lemma ChordFinishes(cfg: Config, s: State, shared: Shared, first: nat, rows: seq<Row>, k: nat) returns (s': State)
    requires TwoChords(cfg, s, shared, first) && k < 2 && cfg.mayYield(2, rows)
    ensures Gets(cfg, s, s') && s'.record == PageRecorded(s.record, 2, |rows|)
    ensures s'.finalisers == map[] && s'.shared == shared && |s'.plans| == 2
    ensures s'.plans[k].pages == (if k == 0 then [1, 2] else [2]) && CleanBody(s'.plans[k])
    ensures s'.record.job.state == RUNNING && s'.record.job.pagesFailed == 0 && s'.record.pages.Keys == {1, 2}
    ensures KeyedPages(s'.plans[k].body.value) == if k == 0 then {1, 2} else {2}
    ensures PagesDone(s'.plans[k].body.value) > 0 && s'.plans[1].done == {1}
  {
    var mid := PageGets(cfg, s, 0, k, 2, rows);
    var one, two := Done(1, first, cfg.pageKey(1), false), Done(2, |rows|, cfg.pageKey(2), false);
    TwoAnswers(one, two);
    s' := ChordGets(cfg, mid, k, if k == 0 then [one, two] else [two]);
    GetsThen(cfg, s, mid, s');
  }

  lemma TwoAnswers(one: PageResult, two: PageResult)
    requires one.Done? && one.page == 1 && two.Done? && two.page == 2
    ensures Answers([one, two], [1, 2]) && KeyedPages([one, two]) == {1, 2} && PagesDone([one, two]) == 2
    ensures Answers([two], [2]) && KeyedPages([two]) == {2} && PagesDone([two]) == 1
  {
    assert one in [one, two] && two in [one, two] && two in [two];
    assert [one, two][..1] == [one] && [two][..0] == [] && [one][..0] == [];
    assert PagesDone([one]) == 1;
  }

  lemma ChordRows(content: nat -> seq<Row>)
    ensures SequentialRows([1, 2], {1, 2}, content) == content(1) + content(2)
    ensures SequentialRows([2], {2}, content) == content(2)
  {
    assert [1, 2][..1] == [1] && [1][..0] == [] && [2][..0] == [];
    assert SequentialRows([1], {1, 2}, content) == content(1);
  }

  /** Such a job can end SUCCEEDED, with both pages recorded, either way: with the whole
      target in its file if its first chord is the one that completes, and with page 2
      alone if its second is. */
  lemma ResumedJobSucceedsEitherWay(cfg: Config, content: nat -> seq<Row>, blobs: Blobs, shared: Shared, now: int,
                                    k: nat)
    returns (s: State)
    requires FreshJob(cfg, blobs) && Fixed(cfg, content) && cfg.mayYield(1, content(1)) && cfg.mayYield(2, content(2))
    requires cfg.maxPages == 2 && cfg.threshold >= 2 && !cfg.incremental
    requires cfg.target.rowKey != [] && shared.baseline.None? && k < 2
    ensures Reachable(cfg, s) && |s.plans| == 2 && s.plans[1].done == {1}
    ensures s.record.job.state == SUCCEEDED && s.record.pages.Keys == {1, 2}
    ensures Holds(s.blobs, cfg.resultKey,
                  Dedupe.Deduped(if k == 0 then content(1) + content(2) else content(2), cfg.target.rowKey))
  {
    var init := Init(cfg, blobs, shared);
    var loaded := if k == 0 then content(1) + content(2) else content(2);
    var two := ResumedGets(cfg, blobs, shared, content(1), now);
    var full := ChordFinishes(cfg, two, shared, |content(1)|, content(2), k);
    GetsThen(cfg, init, two, full);
    assert LoadRows(full.plans[k].body.value, full.blobs) == Ok(loaded) by {
      ChordLoads(cfg, content, blobs, shared, full, k);
    }
    Dedupe.DedupeKeepsFirsts(loaded, cfg.target.rowKey);
    s := ChordSucceeds(cfg, full, k, now, loaded);
    GetsThen(cfg, init, full, s);
    InitGets(cfg, blobs, shared, s);
  }

  lemma ChordLoads(cfg: Config, content: nat -> seq<Row>, blobs: Blobs, shared: Shared, s: State, k: nat)
    requires FreshJob(cfg, blobs) && Fixed(cfg, content) && Gets(cfg, Init(cfg, blobs, shared), s)
    requires k < 2 == |s.plans| && CleanBody(s.plans[k]) && s.plans[k].pages == if k == 0 then [1, 2] else [2]
    requires KeyedPages(s.plans[k].body.value) == if k == 0 then {1, 2} else {2}
    ensures LoadRows(s.plans[k].body.value, s.blobs) == Ok(if k == 0 then content(1) + content(2) else content(2))
  {
    InitGets(cfg, blobs, shared, s);
    PlanInReach(cfg, s, k);
    BodyLoadsInOrder(cfg, content, s, s.plans[k]);
    ChordRows(content);
  }

  // ----- finalisers that end a job, and later ones -----

  /** Settling a run on a target without a baseline. */
  lemma DistinctRunSettles(t: Target, shared: Shared, rows: seq<Row>, pagesDone: nat) returns (done: Settlement)
    requires Dedupe.Distinct(rows, Dedupe.KeyBy(t.rowKey)) && shared.baseline.None? && pagesDone > 0
    ensures SettleTx(t, shared, rows, pagesDone, false) == Ok(done)
    ensures !done.suspect && done.emitted == rows
  {
    Dedupe.StoreSucceedsIffDistinct(shared.snapshot, rows, Dedupe.KeyBy(t.rowKey), t.hash);
    done := SettleTx(t, shared, rows, pagesDone, false).value;
  }

  /** The job row and the file after a finaliser that ended the job with these rows. */
  ghost predicate Succeeded(cfg: Config, s: State, s': State, rows: seq<Row>) {
    && s'.record.job.state == SUCCEEDED && s'.record.job.rows == |rows|
    && s'.record.job.resultBytes == Some(cfg.size(rows))
    && Holds(s'.blobs, cfg.resultKey, rows)
    && s'.record.pages == s.record.pages && s'.plans == s.plans && s'.finalisers == s.finalisers
  }

  lemma FinaliserSucceeds(cfg: Config, s: State, s': State, now: int, done: Settlement)
    requires s.record.job.state == RUNNING && s.record.job.pagesFailed == 0
    requires Wrote(cfg, s, s', now, done) && !done.suspect
    ensures Succeeded(cfg, s, s', done.emitted)
  {
  }

  lemma ChordSucceeds(cfg: Config, s: State, k: nat, now: int, loaded: seq<Row>) returns (s': State)
    requires s.record.job.state == RUNNING && s.record.job.pagesFailed == 0 && s.finalisers == map[]
    requires !cfg.incremental && s.shared.baseline.None?
    requires Dedupe.Distinct(Dedupe.Deduped(loaded, cfg.target.rowKey), Dedupe.KeyBy(cfg.target.rowKey))
    requires k < |s.plans| && s.plans[k].body.Some? && PagesDone(s.plans[k].body.value) > 0
    requires LoadRows(s.plans[k].body.value, s.blobs) == Ok(loaded)
    ensures Gets(cfg, s, s') && Succeeded(cfg, s, s', Dedupe.Deduped(loaded, cfg.target.rowKey))
  {
    var rows := Dedupe.Deduped(loaded, cfg.target.rowKey);
    var done := DistinctRunSettles(cfg.target, s.shared, rows, PagesDone(s.plans[k].body.value));
    s' := Finalised(cfg, s, 0, k, now);
    FinaliserAlone(cfg, s, 0, k, now, rows, done);
    FinaliserSucceeds(cfg, s, s', now, done);
    FinaliserGets(cfg, s, 0, k, now);
  }

  /** The record is the same, the file has these rows; the object store is the same too
      exactly if the file had them before. */
  ghost predicate Replaces(cfg: Config, s: State, s': State, rows: seq<Row>) {
    (&& s'.record == s.record && s'.plans == s.plans && Holds(s'.blobs, cfg.resultKey, rows)
     && (s'.blobs == s.blobs <==> Holds(s.blobs, cfg.resultKey, rows))) == true
  }

  /** A callback that arrives when the job is finished, of whichever chord, replaces the
      result file and leaves the job row, so the row may describe another file. */
  lemma LaterCallback(cfg: Config, s: State, f: nat, k: nat, now: int, rows: seq<Row>, done: Settlement)
    returns (s': State)
    requires s.record.job.state in FINISHED && f !in s.finalisers && CanSettle(cfg, s, k, rows, done)
    ensures Gets(cfg, s, s') && Replaces(cfg, s, s', done.emitted)
  {
    s' := Finalised(cfg, s, f, k, now);
    LaterFinaliserReplaces(cfg, s, f, k, now, rows, done);
    FinaliserGets(cfg, s, f, k, now);
  }

  lemma LaterFinaliserReplaces(cfg: Config, s: State, f: nat, k: nat, now: int, rows: seq<Row>, done: Settlement)
    requires s.record.job.state in FINISHED && f !in s.finalisers && CanSettle(cfg, s, k, rows, done)
    ensures Replaces(cfg, s, Finalised(cfg, s, f, k, now), done.emitted)
  {
    FinaliserAlone(cfg, s, f, k, now, rows, done);
    FinishedStays(cfg, s, Finalised(cfg, s, f, k, now), now, done);
  }

  lemma FinishedStays(cfg: Config, s: State, s': State, now: int, done: Settlement)
    requires s.record.job.state in FINISHED && Wrote(cfg, s, s', now, done)
    ensures Replaces(cfg, s, s', done.emitted)
  {
    var o := OutcomeOf(cfg.resultKey, done.emitted, done.suspect, s.record.job.pagesFailed, cfg.size(done.emitted));
    FinishedJobStays(s.record, o, now);
  }

  // ----- a job that is resumed after its last page -----

  lemma NothingLeft(cfg: Config, s: State)
    requires Inv(cfg, s) && s.record.job.pagesDone == cfg.maxPages
    ensures PagesToFetch(s.record.pages.Keys, cfg.maxPages) == []
  {
    PlanConservation(s.record.pages.Keys, cfg.maxPages);
  }

  lemma NoRowsSettle(cfg: Config, s: State, k: nat)
    requires k < |s.plans| && s.plans[k].body == Some([])
    ensures exists done :: CanSettle(cfg, s, k, [], done) && done.emitted == [] && done.suspect
  {
    var t := cfg.target;
    var key := Dedupe.KeyBy(t.rowKey);
    Dedupe.StoreSucceedsIffDistinct(s.shared.snapshot, [], key, t.hash);
    var done := SettleTx(t, s.shared, [], 0, cfg.incremental).value;
    assert Dedupe.Deduped([], t.rowKey) == [];
    assert CanSettle(cfg, s, k, [], done);
  }

  /** The crawl message comes again and there is nothing left to plan. */
  lemma EmptyChordGets(cfg: Config, s: State, now: int) returns (s': State)
    requires Inv(cfg, s) && s.record.job.state == RUNNING && s.record.job.pagesDone == cfg.maxPages
    requires s.record.job.lostWorkers + 1 < cfg.threshold
    ensures Gets(cfg, s, s') && s'.record.job.state == RUNNING && s'.finalisers == s.finalisers
    ensures |s'.plans| == |s.plans| + 1 && s'.plans[|s.plans|].body == Some([])
    ensures forall k :: 0 <= k < |s.plans| ==> s'.plans[k] == s.plans[k]
    ensures s'.blobs == s.blobs && s'.shared == s.shared && s'.record.job.pagesFailed == s.record.job.pagesFailed
  {
    NothingLeft(cfg, s);
    CrawlTxKeepsLife(cfg, s.record, |s.plans|, now);
    var mid := CrawlGets(cfg, s, now);
    assert mid.plans[|s.plans|].pages == [] && Answers([], []);
    s' := ChordGets(cfg, mid, |s.plans|, []);
    GetsThen(cfg, s, mid, s');
  }

  /** A worker lost after the last page was recorded: from any such state, if the empty
      chord of the resumed job is the one that is finalised, undisturbed, the job ends
      SUSPECT with an empty result file. */
  lemma ResumedAfterLastPage(cfg: Config, s: State, f: nat, now: int) returns (s': State)
    requires Inv(cfg, s) && s.record.job.state == RUNNING && s.record.job.pagesDone == cfg.maxPages
    requires s.record.job.lostWorkers + 1 < cfg.threshold && f !in s.finalisers
    ensures Gets(cfg, s, s')
    ensures s'.record.job.state == SUSPECT && Holds(s'.blobs, cfg.resultKey, [])
  {
    var mid := EmptyChordGets(cfg, s, now);
    var k := |s.plans|;
    NoRowsSettle(cfg, mid, k);
    var done :| CanSettle(cfg, mid, k, [], done) && done.emitted == [] && done.suspect;
    FinaliserAlone(cfg, mid, f, k, now, [], done);
    s' := Finalised(cfg, mid, f, k, now);
    RunningJobFinishes(cfg, mid, s', now, done);
    FinaliserGets(cfg, mid, f, k, now);
    GetsThen(cfg, s, mid, s');
  }

  // ----- exactly when a SUCCEEDED job's file is the whole target -----

  lemma {:induction false} NothingFailed(results: seq<PageResult>)
    requires forall r :: r in results ==> r.Done?
    ensures PagesDone(results) == |results|
  {
    if results != [] {
      assert results[|results| - 1] in results;
      assert forall r :: r in results[..|results| - 1] ==> r in results;
      NothingFailed(results[..|results| - 1]);
    }
  }

  /** What a whole chord loads. */
  lemma WholeChordLoads(cfg: Config, content: nat -> seq<Row>, s: State, shared: Shared)
    requires Reachable(cfg, s) && Fixed(cfg, content) && WholeChord(cfg, s, shared, content)
    ensures LoadRows(s.plans[0].body.value, s.blobs) == Ok(Loop(cfg.maxPages, content))
    ensures PagesDone(s.plans[0].body.value) == cfg.maxPages
  {
    PlanInReach(cfg, s, 0);
    BodyLoadsInOrder(cfg, content, s, s.plans[0]);
    CleanChordCovers(cfg, s, s.plans[0]);
    SequentialIsLoop(cfg.maxPages, KeyedPages(s.plans[0].body.value), content);
    NothingFailed(s.plans[0].body.value);
    PlanConservation({}, cfg.maxPages);
  }

  /** Every page is recorded and its chord complete when the crawl message comes again:
      a second, empty chord. */
  lemma SecondEmptyChordGets(cfg: Config, s: State, shared: Shared, content: nat -> seq<Row>, now: int)
    returns (s': State)
    requires Reachable(cfg, s) && WholeChord(cfg, s, shared, content) && cfg.threshold >= 2
    ensures Gets(cfg, s, s') && s'.blobs == s.blobs && s'.shared == s.shared && s'.finalisers == map[]
    ensures s'.record.job.state == RUNNING && s'.record.job.pagesFailed == 0
    ensures |s'.plans| == 2 && s'.plans[0] == s.plans[0] && s'.plans[1].body == Some([])
  {
    AllRecorded(cfg, s);
    ReachableKeepsInv(cfg, s);
    s' := EmptyChordGets(cfg, s, now);
  }

  /** The first chord ends the job with the whole target, then the callback of the
      second replaces the file with nothing. */
  lemma EmptiedGets(cfg: Config, s: State, now: int, loaded: seq<Row>) returns (s': State)
    requires s.record.job.state == RUNNING && s.record.job.pagesFailed == 0 && s.finalisers == map[]
    requires !cfg.incremental && s.shared.baseline.None?
    requires Dedupe.Distinct(Dedupe.Deduped(loaded, cfg.target.rowKey), Dedupe.KeyBy(cfg.target.rowKey))
    requires |s.plans| == 2 && s.plans[0].body.Some? && PagesDone(s.plans[0].body.value) > 0
    requires LoadRows(s.plans[0].body.value, s.blobs) == Ok(loaded) && s.plans[1].body == Some([])
    ensures Gets(cfg, s, s') && s'.plans == s.plans
    ensures s'.record.job.state == SUCCEEDED && Holds(s'.blobs, cfg.resultKey, [])
    ensures var rows := Dedupe.Deduped(loaded, cfg.target.rowKey);
            s'.record.job.rows == |rows| && s'.record.job.resultBytes == Some(cfg.size(rows))
  {
    var mid := ChordSucceeds(cfg, s, 0, now, loaded);
    NoRowsSettle(cfg, mid, 1);
    var done :| CanSettle(cfg, mid, 1, [], done) && done.emitted == [] && done.suspect;
    s' := LaterCallback(cfg, mid, 0, 1, now, [], done);
    GetsThen(cfg, s, mid, s');
  }

  /** A job that may be fanned out twice, on a target that can be stored: it reaches
      SUCCEEDED with every page recorded, a clean first chord that planned the whole
      target and a job row that describes it, and an empty result file. */
  lemma SucceededWithEmptyFile(cfg: Config, content: nat -> seq<Row>, blobs: Blobs, shared: Shared, now: int)
    returns (s: State)
    requires FreshJob(cfg, blobs) && Fixed(cfg, content) && Answered(cfg, content) && cfg.maxPages >= 1
    requires !cfg.incremental && shared.baseline.None? && cfg.threshold >= 2
    requires Dedupe.Distinct(WholeTarget(cfg, content), Dedupe.KeyBy(cfg.target.rowKey))
    ensures Reachable(cfg, s) && s.record.job.state == SUCCEEDED
    ensures |s.plans| == 2 && CleanBody(s.plans[0]) && s.plans[0].done == {}
    ensures s.record.job.rows == |WholeTarget(cfg, content)|
    ensures s.record.job.resultBytes == Some(cfg.size(WholeTarget(cfg, content)))
    ensures Holds(s.blobs, cfg.resultKey, [])
  {
    var init := Init(cfg, blobs, shared);
    var whole := WholeChordGets(cfg, blobs, shared, content, now);
    InitGets(cfg, blobs, shared, whole);
    WholeChordLoads(cfg, content, whole, shared);
    var two := SecondEmptyChordGets(cfg, whole, shared, content, now);
    GetsThen(cfg, init, whole, two);
    s := EmptiedGets(cfg, two, now, Loop(cfg.maxPages, content));
    GetsThen(cfg, init, two, s);
    InitGets(cfg, blobs, shared, s);
  }

  function WholeTarget(cfg: Config, content: nat -> seq<Row>): seq<Row> {
    Dedupe.Deduped(Loop(cfg.maxPages, content), cfg.target.rowKey)
  }

  /** Fanned out at most once, the file of a SUCCEEDED job is the whole target. */
  lemma SingleFanOutIsWhole(cfg: Config, content: nat -> seq<Row>, s: State)
    requires Reachable(cfg, s) && s.record.job.state == SUCCEEDED && cfg.threshold <= 1
    requires Fixed(cfg, content) && !cfg.incremental
    ensures Holds(s.blobs, cfg.resultKey, WholeTarget(cfg, content))
  {
    PoisonPillBound(cfg, s);
    FinishedWasPlanned(cfg, s);
    SuccessIsTheWholeTarget(cfg, content, s);
  }

  lemma FinishedWasPlanned(cfg: Config, s: State)
    requires Reachable(cfg, s) && s.record.job.state in FINISHED
    ensures |s.plans| >= 1
  {
    ReachableKeepsInv(cfg, s);
  }

  lemma {:induction false} EmptyPages(n: nat, content: nat -> seq<Row>, p: nat)
    requires Loop(n, content) == [] && 1 <= p <= n
    ensures content(p) == []
  {
    if p < n {
      EmptyPages(n - 1, content, p);
    }
  }

  lemma {:induction false} EmptySequence(pages: seq<nat>, kept: set<nat>, content: nat -> seq<Row>)
    requires forall p :: p in pages ==> content(p) == []
    ensures SequentialRows(pages, kept, content) == []
  {
    if pages != [] {
      assert pages[|pages| - 1] in pages;
      assert forall p :: p in pages[..|pages| - 1] ==> p in pages;
      EmptySequence(pages[..|pages| - 1], kept, content);
    }
  }

  /** Nor does it matter how often if the target is empty. */
  lemma EmptyTargetIsWhole(cfg: Config, content: nat -> seq<Row>, s: State)
    requires Reachable(cfg, s) && s.record.job.state == SUCCEEDED && Loop(cfg.maxPages, content) == []
    requires Fixed(cfg, content) && !cfg.incremental
    ensures Holds(s.blobs, cfg.resultKey, WholeTarget(cfg, content))
  {
    SucceededHasResult(cfg, s);
    var k := ResultCoversTargetIff(cfg, content, s);
    PlanInReach(cfg, s, k);
    forall p | p in s.plans[k].pages
      ensures content(p) == []
    {
      EmptyPages(cfg.maxPages, content, p);
    }
    EmptySequence(s.plans[k].pages, KeyedPages(s.plans[k].body.value), content);
  }

  lemma SucceededHasResult(cfg: Config, s: State)
    requires Reachable(cfg, s) && s.record.job.state == SUCCEEDED
    ensures HasResult(cfg, s.blobs)
  {
    ReachableKeepsInv(cfg, s);
  }

  /** The result file of a SUCCEEDED job is the whole target, in every reachable state,
      exactly if the job cannot be fanned out twice or the target has no rows. */
  lemma SucceededFileIsWholeIff(cfg: Config, content: nat -> seq<Row>)
    requires DistinctKeys(cfg) && Fixed(cfg, content) && Answered(cfg, content) && !cfg.incremental
    requires Dedupe.Distinct(WholeTarget(cfg, content), Dedupe.KeyBy(cfg.target.rowKey))
    ensures (forall s :: Reachable(cfg, s) && s.record.job.state == SUCCEEDED ==>
               Holds(s.blobs, cfg.resultKey, WholeTarget(cfg, content)))
            <==> cfg.threshold <= 1 || Loop(cfg.maxPages, content) == []
  {
    if cfg.threshold <= 1 || Loop(cfg.maxPages, content) == [] {
      forall s | Reachable(cfg, s) && s.record.job.state == SUCCEEDED
        ensures Holds(s.blobs, cfg.resultKey, WholeTarget(cfg, content))
      {
        if cfg.threshold <= 1 { SingleFanOutIsWhole(cfg, content, s); } else { EmptyTargetIsWhole(cfg, content, s); }
      }
    } else {
      assert FreshJob(cfg, map[]);
      var s := SucceededWithEmptyFile(cfg, content, map[], Shared(map[], None), 0);
      WholeTargetHasRows(cfg, content);
    }
  }

  lemma WholeTargetHasRows(cfg: Config, content: nat -> seq<Row>)
    requires Loop(cfg.maxPages, content) != []
    ensures WholeTarget(cfg, content) != []
  {
  }

  // ----- the other two shortfalls are reached -----

  /** Some run of every job that may be fanned out twice ends so. */
  lemma ResumedAfterLastPageIsReached(cfg: Config, content: nat -> seq<Row>, blobs: Blobs, shared: Shared, now: int)
    returns (s: State)
    requires FreshJob(cfg, blobs) && Answered(cfg, content) && cfg.threshold >= 2
    ensures Reachable(cfg, s) && s.record.job.state == SUSPECT && Holds(s.blobs, cfg.resultKey, [])
  {
    var whole := WholeChordGets(cfg, blobs, shared, content, now);
    InitGets(cfg, blobs, shared, whole);
    AllRecorded(cfg, whole);
    ReachableKeepsInv(cfg, whole);
    s := ResumedAfterLastPage(cfg, whole, 0, now);
    GetsThen(cfg, Init(cfg, blobs, shared), whole, s);
    InitGets(cfg, blobs, shared, s);
  }

  lemma {:induction false} EverythingIsNew(rows: seq<Row>, key: Dedupe.Key, hash: Dedupe.Hash)
    ensures Dedupe.Added(rows, key, map[]) == rows && Dedupe.Changed(rows, key, hash, map[]) == []
  {
    if rows != [] {
      EverythingIsNew(rows[..|rows| - 1], key, hash);
    }
  }

  lemma FirstRunSettles(t: Target, shared: Shared, rows: seq<Row>, pagesDone: nat) returns (done: Settlement)
    requires Dedupe.Distinct(rows, Dedupe.KeyBy(t.rowKey)) && shared.snapshot == map[]
    ensures SettleTx(t, shared, rows, pagesDone, true) == Ok(done) && done.emitted == rows
  {
    Dedupe.StoreSucceedsIffDistinct(shared.snapshot, rows, Dedupe.KeyBy(t.rowKey), t.hash);
    EverythingIsNew(rows, Dedupe.KeyBy(t.rowKey), t.hash);
    done := SettleTx(t, shared, rows, pagesDone, true).value;
  }

  /** An incremental job that is the first of its target emits all its rows, and loses
      them when its callback comes again. */
  lemma IncrementalFileIsLost(cfg: Config, content: nat -> seq<Row>, blobs: Blobs, shared: Shared, now: int)
    returns (once: State, twice: State)
    requires FreshJob(cfg, blobs) && Fixed(cfg, content) && Answered(cfg, content)
    requires cfg.incremental && shared.snapshot == map[]
    requires Dedupe.Distinct(WholeTarget(cfg, content), Dedupe.KeyBy(cfg.target.rowKey))
    ensures Reachable(cfg, once) && once.record.job.state in FINISHED
    ensures Holds(once.blobs, cfg.resultKey, WholeTarget(cfg, content))
    ensures Reachable(cfg, twice) && twice.record == once.record && Holds(twice.blobs, cfg.resultKey, [])
  {
    var init := Init(cfg, blobs, shared);
    var whole := WholeChordGets(cfg, blobs, shared, content, now);
    var rows := WholeTarget(cfg, content);
    var done := FirstRunSettles(cfg.target, shared, rows, cfg.maxPages);
    assert Inv(cfg, whole) && CanSettle(cfg, whole, 0, rows, done) by {
      InitGets(cfg, blobs, shared, whole);
      ReachableKeepsInv(cfg, whole);
      WholeChordLoads(cfg, content, whole, shared);
    }
    RedeliveredCallback(cfg, whole, 0, 1, 0, now, now, rows, done);
    once := Finalised(cfg, whole, 0, 0, now);
    twice := Finalised(cfg, once, 1, 0, now);
    TwiceReachable(cfg, blobs, shared, whole, now);
  }

  lemma TwiceReachable(cfg: Config, blobs: Blobs, shared: Shared, s: State, now: int)
    requires FreshJob(cfg, blobs) && Gets(cfg, Init(cfg, blobs, shared), s)
    ensures Reachable(cfg, Finalised(cfg, s, 0, 0, now))
    ensures Reachable(cfg, Finalised(cfg, Finalised(cfg, s, 0, 0, now), 1, 0, now))
  {
    var init, once := Init(cfg, blobs, shared), Finalised(cfg, s, 0, 0, now);
    FinaliserGets(cfg, s, 0, 0, now);
    GetsThen(cfg, init, s, once);
    InitGets(cfg, blobs, shared, once);
    FinaliserGets(cfg, once, 1, 0, now);
    GetsThen(cfg, init, once, Finalised(cfg, once, 1, 0, now));
    InitGets(cfg, blobs, shared, Finalised(cfg, once, 1, 0, now));
  }
}
