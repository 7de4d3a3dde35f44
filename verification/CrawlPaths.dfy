/** Runs of the crawl protocol put together step by step: from a crawl message to a
    completed chord and its finaliser. */
module CrawlPaths {
  import opened Wrappers
  import opened States
  import opened Repo
  import opened Export
  import opened Crawl
  import opened CrawlInvariant
  import opened CrawlRuns
  import opened CrawlOutput
  import opened CrawlRedelivery
  import Dedupe

  // ----- runs, step by step -----

  ghost predicate Path(cfg: Config, states: seq<State>, steps: seq<Step>) {
    && |states| == |steps| + 1
    && forall i, j :: 0 <= i && j == i + 1 < |states| ==> Leads(cfg, states[i], steps[i], states[j])
  }

  /** Some steps of the protocol lead from `s` to `s'`. */
  ghost predicate Gets(cfg: Config, s: State, s': State) {
    exists states, steps :: Path(cfg, states, steps) && states[0] == s && states[|steps|] == s'
  }

  lemma GetsByStep(cfg: Config, s: State, step: Step, s': State)
    requires Leads(cfg, s, step, s')
    ensures Gets(cfg, s, s')
  {
    assert Path(cfg, [s, s'], [step]);
    assert [s, s'][|[step]|] == s';
  }

  lemma GetsThen(cfg: Config, s: State, mid: State, s': State)
    requires Gets(cfg, s, mid) && Gets(cfg, mid, s')
    ensures Gets(cfg, s, s')
  {
    var states, steps :| Path(cfg, states, steps) && states[0] == s && states[|steps|] == mid;
    var more, rest :| Path(cfg, more, rest) && more[0] == mid && more[|rest|] == s';
    PathsJoin(cfg, states, steps, more, rest);
  }

  lemma PathsJoin(cfg: Config, states: seq<State>, steps: seq<Step>, more: seq<State>, rest: seq<Step>)
    requires Path(cfg, states, steps) && Path(cfg, more, rest) && more[0] == states[|steps|]
    ensures Gets(cfg, states[0], more[|rest|])
  {
    var all, taken := states + more[1..], steps + rest;
    forall i, j | 0 <= i && j == i + 1 < |all|
      ensures Leads(cfg, all[i], taken[i], all[j])
    {
      if j < |states| {
        assert Leads(cfg, states[i], steps[i], states[j]);
      } else {
        var k := i - |steps|;
        assert all[i] == more[k] && all[j] == more[k + 1] && taken[i] == rest[k];
        assert Leads(cfg, more[k], rest[k], more[k + 1]);
      }
    }
    assert Path(cfg, all, taken) && all[|taken|] == more[|rest|];
  }

  lemma {:induction false} PathIsRun(cfg: Config, states: seq<State>, steps: seq<Step>, i: nat)
    requires Path(cfg, states, steps) && i <= |steps|
    ensures Run(cfg, states[0], steps[..i]) == states[i]
  {
    if i > 0 {
      PathIsRun(cfg, states, steps, i - 1);
      LeadsIsGraph(cfg, states[i - 1], steps[i - 1], states[i]);
      assert steps[..i][..i - 1] == steps[..i - 1] && steps[..i][i - 1] == steps[i - 1];
    }
  }

  lemma InitGets(cfg: Config, blobs: Blobs, shared: Shared, s: State)
    requires FreshJob(cfg, blobs) && Gets(cfg, Init(cfg, blobs, shared), s)
    ensures Reachable(cfg, s)
  {
    var states, steps :| Path(cfg, states, steps) && states[0] == Init(cfg, blobs, shared) && states[|steps|] == s;
    PathIsRun(cfg, states, steps, |steps|);
    assert steps[..|steps|] == steps;
  }

  // ----- some runs -----

  /** The crawl message is delivered and its chord dispatched. */
  lemma CrawlGets(cfg: Config, s: State, now: int) returns (s': State)
    requires CrawlTx(s.record, cfg.threshold, now).Planned?
    ensures Gets(cfg, s, s')
    ensures var tx := CrawlTx(s.record, cfg.threshold, now);
            var messages := set p | p in tx.pending :: (p, 0);
            s' == s.(record := tx.record,
                     plans := s.plans + [NewPlan(s.record, tx.pending).(dispatched := true, messages := messages)])
  {
    var mid := DeliverCrawlStep(cfg, s, now);
    s' := DispatchStep(mid, |s.plans|);
    GetsByStep(cfg, s, DeliverCrawl(now), mid);
    GetsByStep(cfg, mid, Dispatch(|s.plans|), s');
    GetsThen(cfg, s, mid, s');
    var plan := NewPlan(s.record, CrawlTx(s.record, cfg.threshold, now).pending);
    assert mid.plans == s.plans + [plan];
    assert s'.plans == s.plans + [plan.(dispatched := true, messages := set p | p in plan.pages :: (p, 0))];
  }

  /** A page task runs from its message to its result. */
  lemma PageGets(cfg: Config, s: State, w: nat, k: nat, page: nat, rows: seq<Row>) returns (s': State)
    requires w !in s.workers && k < |s.plans| && (page, 0) in s.plans[k].messages
    requires s.record.job.state != CANCELLED && page !in s.record.pages && cfg.mayYield(page, rows)
    ensures Gets(cfg, s, s')
    ensures var done := Done(page, |rows|, cfg.pageKey(page), false);
            s' == s.(record := PageRecorded(s.record, page, |rows|),
                     blobs := s.blobs[cfg.pageKey(page) := PageBlob(rows)],
                     plans := s.plans[k := s.plans[k].(returned := s.plans[k].returned + {done})])
  {
    var s1 := PageStarts(cfg, s, w, k, page, rows);
    var s2 := PageStores(cfg, s1, w);
    GetsThen(cfg, s, s1, s2);
    s' := ReturnStep(s2, w);
    GetsByStep(cfg, s2, Return(w), s');
    GetsThen(cfg, s, s2, s');
    assert s'.workers == s.workers;
  }

  lemma PageStarts(cfg: Config, s: State, w: nat, k: nat, page: nat, rows: seq<Row>) returns (s': State)
    requires w !in s.workers && k < |s.plans| && (page, 0) in s.plans[k].messages
    requires s.record.job.state != CANCELLED && cfg.mayYield(page, rows)
    ensures Gets(cfg, s, s')
    ensures s' == s.(workers := s.workers[w := Fetched(k, page, rows)])
  {
    var mid := StartPageStep(s, w, k, page, 0);
    s' := FetchStep(cfg, mid, w, Rows(rows));
    GetsByStep(cfg, s, StartPage(w, k, page, 0), mid);
    GetsByStep(cfg, mid, Fetch(w, Rows(rows)), s');
    GetsThen(cfg, s, mid, s');
  }

  lemma PageStores(cfg: Config, s: State, w: nat) returns (s': State)
    requires w in s.workers && s.workers[w].Fetched?
    ensures Gets(cfg, s, s')
    ensures var t := s.workers[w];
            var done := Done(t.page, |t.rows|, cfg.pageKey(t.page), t.page in s.record.pages);
            s' == s.(record := PageRecorded(s.record, t.page, |t.rows|),
                     blobs := s.blobs[cfg.pageKey(t.page) := PageBlob(t.rows)],
                     workers := s.workers[w := Returning(t.plan, done)])
  {
    var mid := PutPageStep(cfg, s, w);
    s' := CommitPageStep(cfg, mid, w);
    GetsByStep(cfg, s, PutPage(w), mid);
    GetsByStep(cfg, mid, CommitPage(w), s');
    GetsThen(cfg, s, mid, s');
  }

  /** A chord completes. */
  lemma ChordGets(cfg: Config, s: State, k: nat, results: seq<PageResult>) returns (s': State)
    requires k < |s.plans| && s.plans[k].dispatched && s.plans[k].body.None?
    requires Answers(results, s.plans[k].pages) && forall r :: r in results ==> r in s.plans[k].returned
    ensures Gets(cfg, s, s')
    ensures s' == s.(plans := s.plans[k := s.plans[k].(body := Some(results))])
  {
    s' := CompleteStep(s, k, results);
    GetsByStep(cfg, s, Complete(k, results), s');
  }

  /** A finaliser runs from its callback to its last transaction. */
  lemma FinaliserGets(cfg: Config, s: State, f: nat, k: nat, now: int)
    ensures Gets(cfg, s, Finalised(cfg, s, f, k, now))
  {
    var s1 := AssembleStep(s, f, k);
    GetsByStep(cfg, s, Assemble(f, k), s1);
    var s2 := LoadStep(cfg, s1, f);
    GetsByStep(cfg, s1, Load(f), s2);
    GetsThen(cfg, s, s1, s2);
    WriteGets(cfg, s2, f, now);
    GetsThen(cfg, s, s2, Finalised(cfg, s, f, k, now));
  }

  lemma WriteGets(cfg: Config, s: State, f: nat, now: int)
    ensures Gets(cfg, s, FinishStep(cfg, UploadStep(cfg, SettleStep(cfg, s, f), f), f, now))
  {
    var s1 := SettleStep(cfg, s, f);
    GetsByStep(cfg, s, Settle(f), s1);
    var s2 := UploadStep(cfg, s1, f);
    GetsByStep(cfg, s1, Upload(f), s2);
    GetsThen(cfg, s, s1, s2);
    var s3 := FinishStep(cfg, s2, f, now);
    GetsByStep(cfg, s2, Finish(f, now), s3);
    GetsThen(cfg, s, s2, s3);
  }

  lemma FirstMessages(cfg: Config, blobs: Blobs, shared: Shared, p: nat, now: int)
    requires 1 <= p <= cfg.maxPages
    ensures var tx := CrawlTx(Init(cfg, blobs, shared).record, cfg.threshold, now);
            && tx.Planned? && p in tx.pending
            && tx.record.job.state == RUNNING && tx.record.pages == map[]
  {
    PlanIsMissingPages(Created(cfg.maxPages).pages.Keys, cfg.maxPages);
  }

  // ----- a whole chord -----

  function ResultOf(cfg: Config, content: nat -> seq<Row>, p: nat): PageResult {
    Done(p, |content(p)|, cfg.pageKey(p), false)
  }

  function ResultsFor(cfg: Config, content: nat -> seq<Row>, pages: seq<nat>): seq<PageResult> {
    seq(|pages|, i requires 0 <= i < |pages| => ResultOf(cfg, content, pages[i]))
  }

  ghost predicate Answered(cfg: Config, content: nat -> seq<Row>) {
    forall p :: 1 <= p <= cfg.maxPages ==> cfg.mayYield(p, content(p))
  }

  /** The job was planned once and its first `n` pages have been fetched. */
  ghost predicate FetchedUpTo(cfg: Config, s: State, shared: Shared, content: nat -> seq<Row>, n: nat) {
    && s.record.job.state == RUNNING && s.record.job.lostWorkers == 0 && s.record.job.pagesFailed == 0
    && s.workers == map[] && s.finalisers == map[] && s.shared == shared
    && |s.plans| == 1 && s.plans[0].dispatched && s.plans[0].body.None? && s.plans[0].done == {}
    && s.plans[0].pages == PagesToFetch({}, cfg.maxPages)
    && (forall p :: 1 <= p <= cfg.maxPages ==> (p, 0) in s.plans[0].messages)
    && (forall p :: p in s.record.pages <==> 1 <= p <= n)
    && (forall p :: 1 <= p <= n ==> ResultOf(cfg, content, p) in s.plans[0].returned)
  }

  lemma FirstPlanGets(cfg: Config, blobs: Blobs, shared: Shared, content: nat -> seq<Row>, now: int) returns (s: State)
    ensures Gets(cfg, Init(cfg, blobs, shared), s) && FetchedUpTo(cfg, s, shared, content, 0)
    ensures forall m :: m in s.plans[0].messages ==> m.1 == 0
  {
    assert Created(cfg.maxPages).pages.Keys == {};
    PlanIsMissingPages({}, cfg.maxPages);
    s := CrawlGets(cfg, Init(cfg, blobs, shared), now);
  }

  lemma NextPageGets(cfg: Config, s: State, shared: Shared, content: nat -> seq<Row>, n: nat) returns (s': State)
    requires FetchedUpTo(cfg, s, shared, content, n) && n < cfg.maxPages && cfg.mayYield(n + 1, content(n + 1))
    ensures Gets(cfg, s, s') && FetchedUpTo(cfg, s', shared, content, n + 1)
  {
    var page := n + 1;
    s' := PageGets(cfg, s, 0, 0, page, content(page));
  }

  lemma {:induction false} PagesGet(cfg: Config, blobs: Blobs, shared: Shared, content: nat -> seq<Row>, n: nat,
                                    now: int)
    returns (s: State)
    requires Answered(cfg, content) && n <= cfg.maxPages
    ensures Gets(cfg, Init(cfg, blobs, shared), s) && FetchedUpTo(cfg, s, shared, content, n)
    decreases n
  {
    if n == 0 {
      s := FirstPlanGets(cfg, blobs, shared, content, now);
    } else {
      var mid := PagesGet(cfg, blobs, shared, content, n - 1, now);
      s := NextPageGets(cfg, mid, shared, content, n - 1);
      GetsThen(cfg, Init(cfg, blobs, shared), mid, s);
    }
  }

  lemma ResultsAnswer(cfg: Config, content: nat -> seq<Row>, pages: seq<nat>)
    requires Ascending(pages)
    ensures Answers(ResultsFor(cfg, content, pages), pages)
    ensures forall r :: r in ResultsFor(cfg, content, pages) ==> r.page in pages && r == ResultOf(cfg, content, r.page)
  {
    var results := ResultsFor(cfg, content, pages);
    forall p | p in pages
      ensures exists r :: r in results && r.page == p
    {
      var i :| 0 <= i < |pages| && pages[i] == p;
      assert results[i] in results;
    }
  }

  /** The job was planned once, every page was fetched and its chord is complete. */
  ghost predicate WholeChord(cfg: Config, s: State, shared: Shared, content: nat -> seq<Row>) {
    var full := PagesToFetch({}, cfg.maxPages);
    && s.record.job.state == RUNNING && s.record.job.lostWorkers == 0 && s.record.job.pagesFailed == 0
    && s.workers == map[] && s.finalisers == map[] && s.shared == shared
    && |s.plans| == 1 && s.plans[0].done == {} && s.plans[0].pages == full
    && s.plans[0].body == Some(ResultsFor(cfg, content, full)) && CleanBody(s.plans[0])
    && forall p :: 1 <= p <= cfg.maxPages ==> p in s.record.pages
  }

  lemma ChordIsWhole(cfg: Config, s: State, shared: Shared, content: nat -> seq<Row>) returns (s': State)
    requires FetchedUpTo(cfg, s, shared, content, cfg.maxPages)
    ensures Gets(cfg, s, s') && WholeChord(cfg, s', shared, content)
  {
    var full := PagesToFetch({}, cfg.maxPages);
    PlanIsMissingPages({}, cfg.maxPages);
    ResultsAnswer(cfg, content, full);
    s' := ChordGets(cfg, s, 0, ResultsFor(cfg, content, full));
  }

  /** So does some run of every job whose pages the site answers. */
  lemma WholeChordGets(cfg: Config, blobs: Blobs, shared: Shared, content: nat -> seq<Row>, now: int) returns (s: State)
    requires Answered(cfg, content)
    ensures Gets(cfg, Init(cfg, blobs, shared), s) && WholeChord(cfg, s, shared, content)
  {
    var mid := PagesGet(cfg, blobs, shared, content, cfg.maxPages, now);
    s := ChordIsWhole(cfg, mid, shared, content);
    GetsThen(cfg, Init(cfg, blobs, shared), mid, s);
  }
}
