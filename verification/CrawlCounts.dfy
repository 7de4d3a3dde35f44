/** Exactly when the row count recorded for a page is the length of its object: a page
    delivered again overwrites the object and leaves the count. */
module CrawlCounts {
  import opened Wrappers
  import opened States
  import opened Repo
  import opened Export
  import opened Crawl
  import opened CrawlInvariant
  import opened CrawlRuns
  import opened CrawlOutput
  import opened CrawlPaths

  ghost predicate CountAgrees(cfg: Config, s: State, p: nat)
    requires p in s.record.pages
  {
    cfg.pageKey(p) in s.blobs && |s.blobs[cfg.pageKey(p)].rows| == s.record.pages[p]
  }

  /** The site answers page p with rows of one length. */
  ghost predicate OneLength(cfg: Config, p: nat) {
    forall a, b :: cfg.mayYield(p, a) && cfg.mayYield(p, b) ==> |a| == |b|
  }

  /** A result marked as duplicate added nothing; any other added one page and its rows. */
  lemma DuplicateAddsNothing(cfg: Config, s: State, w: nat)
    requires w in s.workers && s.workers[w].Stored?
    ensures var t, s' := s.workers[w], CommitPageStep(cfg, s, w);
            && w in s'.workers && s'.workers[w].Returning? && s'.workers[w].result.Done?
            && (if s'.workers[w].result.duplicate then s'.record == s.record
                else
                  && s'.record.job.pagesDone == s.record.job.pagesDone + 1
                  && s'.record.job.rows == s.record.job.rows + |t.rows|
                  && s'.record.pages.Keys == s.record.pages.Keys + {t.page})
            && s'.workers[w].result.rows == |t.rows|
  {
  }

  /** Page p is fetched with the rows `a` and then again with the rows `b`. */
  lemma FetchedTwiceGets(cfg: Config, blobs: Blobs, shared: Shared, p: nat, a: seq<Row>, b: seq<Row>, now: int)
    returns (s: State)
    requires 1 <= p <= cfg.maxPages && cfg.mayYield(p, a) && cfg.mayYield(p, b)
    ensures Gets(cfg, Init(cfg, blobs, shared), s)
    ensures s.record.pages == map[p := |a|]
    ensures cfg.pageKey(p) in s.blobs && s.blobs[cfg.pageKey(p)] == PageBlob(b)
  {
    var init := Init(cfg, blobs, shared);
    FirstMessages(cfg, blobs, shared, p, now);
    var planned := CrawlGets(cfg, init, now);
    assert (p, 0) in planned.plans[0].messages;
    var once := PageGets(cfg, planned, 0, 0, p, a);
    GetsThen(cfg, init, planned, once);
    s := FetchedAgainGets(cfg, once, p, b);
    GetsThen(cfg, init, once, s);
  }

  lemma FetchedAgainGets(cfg: Config, s: State, p: nat, rows: seq<Row>) returns (s': State)
    requires 0 !in s.workers && s.plans != [] && (p, 0) in s.plans[0].messages && s.record.job.state == RUNNING
    requires p in s.record.pages && cfg.mayYield(p, rows)
    ensures Gets(cfg, s, s') && s'.record == s.record && s'.blobs == s.blobs[cfg.pageKey(p) := PageBlob(rows)]
  {
    var started := PageStarts(cfg, s, 0, 0, p, rows);
    s' := PageStores(cfg, started, 0);
    GetsThen(cfg, s, started, s');
  }

  /** Recorded count and stored object of a page agree in every reachable state exactly
      if the site's answers for that page all have one length. */
  lemma CountAgreesIff(cfg: Config, p: nat)
    requires DistinctKeys(cfg) && 1 <= p <= cfg.maxPages
    ensures (forall s :: Reachable(cfg, s) && p in s.record.pages ==> CountAgrees(cfg, s, p)) <==> OneLength(cfg, p)
  {
    if OneLength(cfg, p) {
      forall s | Reachable(cfg, s) && p in s.record.pages
        ensures CountAgrees(cfg, s, p)
      {
        CountedPage(cfg, s, p);
      }
    } else {
      var a, b :| cfg.mayYield(p, a) && cfg.mayYield(p, b) && |a| != |b|;
      var shared := Shared(map[], None);
      assert FreshJob(cfg, map[]);
      var s := FetchedTwiceGets(cfg, map[], shared, p, a, b, 0);
      InitGets(cfg, map[], shared, s);
      assert !CountAgrees(cfg, s, p);
    }
  }

  /** And all of a job's counts do exactly if that is so for each of its pages. */
  lemma CountsAgreeIff(cfg: Config)
    requires DistinctKeys(cfg)
    ensures (forall s, p :: Reachable(cfg, s) && p in s.record.pages ==> CountAgrees(cfg, s, p))
            <==> forall p :: 1 <= p <= cfg.maxPages ==> OneLength(cfg, p)
  {
    if forall s, p :: Reachable(cfg, s) && p in s.record.pages ==> CountAgrees(cfg, s, p) {
      forall p | 1 <= p <= cfg.maxPages
        ensures OneLength(cfg, p)
      {
        CountAgreesIff(cfg, p);
      }
    }
    if forall p :: 1 <= p <= cfg.maxPages ==> OneLength(cfg, p) {
      forall s, p | Reachable(cfg, s) && p in s.record.pages
        ensures CountAgrees(cfg, s, p)
      {
        PageInRange(cfg, s, p);
        CountAgreesIff(cfg, p);
      }
    }
  }

  lemma PageInRange(cfg: Config, s: State, p: nat)
    requires Reachable(cfg, s) && p in s.record.pages
    ensures 1 <= p <= cfg.maxPages
  {
    ReachableKeepsInv(cfg, s);
  }
}
