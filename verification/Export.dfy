/** Finalising a job (scrapequeue/pipeline/export.py) and the object keys it shares
    with the page tasks (page_key in scrapequeue/pipeline/crawl.py). */
module Export {
  import opened Wrappers
  import opened States
  import Text
  import Dedupe
  import Drift
  import Repo

  type Row = Dedupe.Row

  /** What a page task returns to its chord. */
  datatype PageResult =
    | Skipped(page: nat)
    | Failed(page: nat)
    | Done(page: nat, rows: nat, key: string, duplicate: bool)

  /** An object in the store, with its JSON or CSV encoding undone. */
  datatype Blob = PageBlob(rows: seq<Row>) | ResultBlob(rows: seq<Row>)

  type Blobs = map<string, Blob>

  // ----- keys -----

  function PageKey(id: string, page: nat): string {
    "jobs/" + id + "/" + ("pages/" + (Text.Pad5(page) + ".json"))
  }

  function ResultKey(id: string, format: string): string {
    "jobs/" + id + "/" + ("result." + format)
  }

  lemma SlashCuts(a: string, x: string, b: string, y: string)
    requires '/' !in a && '/' !in b && a + "/" + x == b + "/" + y
    ensures a == b && x == y
  {
    Text.SplitPrefix(a, x, '/');
    Text.SplitPrefix(b, y, '/');
    assert a == Text.Split(a + "/" + x, '/')[0] && b == Text.Split(b + "/" + y, '/')[0];
    assert x == (a + "/" + x)[|a| + 1..] && y == (b + "/" + y)[|b| + 1..];
  }

  lemma KeyIdentifiesJob(a: string, x: string, b: string, y: string)
    requires '/' !in a && '/' !in b && "jobs/" + a + "/" + x == "jobs/" + b + "/" + y
    ensures a == b && x == y
  {
    assert a + "/" + x == ("jobs/" + a + "/" + x)[5..];
    assert b + "/" + y == ("jobs/" + b + "/" + y)[5..];
    SlashCuts(a, x, b, y);
  }

  /** No two pages share a key, within a job or across jobs, and no page shares one
      with a result file.  A job id is a UUID, so it has no slash. */
  lemma KeysAreDistinct(a: string, b: string, p: nat, q: nat, f: string, g: string)
    requires '/' !in a && '/' !in b
    ensures PageKey(a, p) == PageKey(b, q) ==> a == b && p == q
    ensures ResultKey(a, f) == ResultKey(b, g) ==> a == b && f == g
    ensures PageKey(a, p) != ResultKey(b, g)
  {
    var px, qx := Text.Pad5(p) + ".json", Text.Pad5(q) + ".json";
    if PageKey(a, p) == PageKey(b, q) {
      KeyIdentifiesJob(a, "pages/" + px, b, "pages/" + qx);
      assert px == ("pages/" + px)[6..] && qx == ("pages/" + qx)[6..];
      assert Text.Pad5(p) == px[..|px| - 5] && Text.Pad5(q) == qx[..|qx| - 5];
      Text.Pad5IsInjective(p, q);
    }
    if ResultKey(a, f) == ResultKey(b, g) {
      KeyIdentifiesJob(a, "result." + f, b, "result." + g);
      assert f == ("result." + f)[7..] && g == ("result." + g)[7..];
    }
    assert ("pages/" + px)[0] != ("result." + g)[0];
    if PageKey(a, p) == ResultKey(b, g) {
      KeyIdentifiesJob(a, "pages/" + px, b, "result." + g);
    }
  }

  // ----- reading the pages back -----

  function Insert(r: PageResult, sorted: seq<PageResult>): seq<PageResult> {
    if sorted == [] || r.page <= sorted[0].page then [r] + sorted
    else [sorted[0]] + Insert(r, sorted[1..])
  }

  /** By page number, ascending and stable. */
  function SortByPage(results: seq<PageResult>): seq<PageResult> {
    if results == [] then [] else Insert(results[0], SortByPage(results[1..]))
  }

  /** The rows behind the results, in the order given; the key of the first missing
      object otherwise. */
  function RowsOf(results: seq<PageResult>, blobs: Blobs): Result<seq<Row>, string> {
    if results == [] then Ok([])
    else
      var front, last := RowsOf(results[..|results| - 1], blobs), results[|results| - 1];
      if front.Err? || !last.Done? then front
      else if last.key !in blobs then Err(last.key)
      else Ok(front.value + blobs[last.key].rows)
  }

  function LoadRows(results: seq<PageResult>, blobs: Blobs): Result<seq<Row>, string> {
    RowsOf(SortByPage(results), blobs)
  }

  /** The results that are not marked as failed, skipped ones included. */
  function PagesDone(results: seq<PageResult>): nat {
    if results == [] then 0
    else PagesDone(results[..|results| - 1]) + if results[|results| - 1].Failed? then 0 else 1
  }

  // ----- the transactions -----

  datatype Target = Target(rowKey: seq<string>, hash: Dedupe.Hash, minRatio: real)

  /** What all jobs of a target share. */
  datatype Shared = Shared(snapshot: Dedupe.Snapshot, baseline: Option<Drift.Baseline>)

  datatype Settlement = Settlement(shared: Shared, emitted: seq<Row>, suspect: bool)

  /** The second transaction: diff, store the snapshot, judge the row counts. */
  function SettleTx(t: Target, shared: Shared, rows: seq<Row>, pagesDone: nat, incremental: bool)
    : Result<Settlement, Dedupe.Error>
  {
    var key := Dedupe.KeyBy(t.rowKey);
    var emitted := if incremental then Dedupe.DiffOf(rows, key, t.hash, shared.snapshot).Rows() else rows;
    match Dedupe.StoreSnapshot(shared.snapshot, rows, key, t.hash)
    case Err(e) => Err(e)
    case Ok(snapshot) =>
      var (verdict, baseline) := Drift.Judge(shared.baseline, |rows|, pagesDone, t.minRatio);
      Ok(Settlement(Shared(snapshot, baseline), emitted, verdict.suspect))
  }

  // ----- what a settlement decides and stores -----

  /** No page was fetched, or the run has too few rows for the target's baseline. */
  predicate BelowFloor(baseline: Option<Drift.Baseline>, rows: nat, pagesDone: nat, minRatio: real) {
    || pagesDone == 0
    || (baseline.Some? && rows as real < baseline.value.rowsPerPage as real * minRatio * pagesDone as real)
  }

  lemma VerdictIsBelowFloor(baseline: Option<Drift.Baseline>, rows: nat, pagesDone: nat, minRatio: real)
    ensures Drift.Judge(baseline, rows, pagesDone, minRatio).0.suspect
            <==> BelowFloor(baseline, rows, pagesDone, minRatio)
  {
    if pagesDone > 0 && baseline.Some? {
      Drift.QuotientBelow(rows as real, pagesDone as real, baseline.value.rowsPerPage as real * minRatio);
    }
  }

  /** The verdict and the new baseline come from all the rows of the run, whatever it
      emits, and all of them are in the new snapshot with their hashes. */
  lemma SettlementIsOfAllRows(t: Target, shared: Shared, rows: seq<Row>, pagesDone: nat, incremental: bool)
    requires SettleTx(t, shared, rows, pagesDone, incremental).Ok?
    ensures var done := SettleTx(t, shared, rows, pagesDone, incremental).value;
            && (done.suspect <==> BelowFloor(shared.baseline, |rows|, pagesDone, t.minRatio))
            && done.shared.baseline == Drift.Judge(shared.baseline, |rows|, pagesDone, t.minRatio).1
            && forall i :: 0 <= i < |rows| ==> Recorded(t, done.shared.snapshot, rows[i])
  {
    VerdictIsBelowFloor(shared.baseline, |rows|, pagesDone, t.minRatio);
    forall i | 0 <= i < |rows|
      ensures Recorded(t, SettleTx(t, shared, rows, pagesDone, incremental).value.shared.snapshot, rows[i])
    {
      SettledRowIsRecorded(t, shared, rows, i);
    }
  }

  /** The snapshot has the row's identity with the row's hash. */
  predicate Recorded(t: Target, snapshot: Dedupe.Snapshot, row: Row) {
    Dedupe.Identity(row, t.rowKey) in snapshot && snapshot[Dedupe.Identity(row, t.rowKey)] == t.hash(row)
  }

  lemma SettledRowIsRecorded(t: Target, shared: Shared, rows: seq<Row>, i: nat)
    requires i < |rows| && Dedupe.StoreSnapshot(shared.snapshot, rows, Dedupe.KeyBy(t.rowKey), t.hash).Ok?
    ensures Recorded(t, Dedupe.StoreSnapshot(shared.snapshot, rows, Dedupe.KeyBy(t.rowKey), t.hash).value, rows[i])
  {
    Dedupe.StoreSucceedsIffDistinct(shared.snapshot, rows, Dedupe.KeyBy(t.rowKey), t.hash);
    Dedupe.UpsertedAt(shared.snapshot, rows, Dedupe.KeyBy(t.rowKey), t.hash, i);
  }

  /** An incremental run settles exactly when a full one would, with the same verdict and
      leaving the same behind; only what they emit differs. */
  lemma ModesSettleAlike(t: Target, shared: Shared, rows: seq<Row>, pagesDone: nat)
    ensures var full, diff := SettleTx(t, shared, rows, pagesDone, false), SettleTx(t, shared, rows, pagesDone, true);
            && (full.Ok? <==> diff.Ok?)
            && (full.Ok? ==>
                  && full.value.suspect == diff.value.suspect && full.value.shared == diff.value.shared
                  && full.value.emitted == rows)
  {
  }

  /** The pages of a run are the results that are not marked failed. */
  lemma {:induction false} PagesDoneCounts(results: seq<PageResult>)
    ensures PagesDone(results) == |set i | 0 <= i < |results| && !results[i].Failed?|
  {
    var done := set i | 0 <= i < |results| && !results[i].Failed?;
    if results != [] {
      var n := |results| - 1;
      var before := set i | 0 <= i < n && !results[..n][i].Failed?;
      PagesDoneCounts(results[..n]);
      assert done == before + if results[n].Failed? then {} else {n};
      assert n !in before;
    } else {
      assert done == {};
    }
  }

  /** How a job's objects are named: pages by their numbers, padded to five digits. */
  lemma KeyLayout()
    ensures PageKey("j", 7) == "jobs/j/pages/00007.json"
  {
    Text.PadOfSeven();
  }

  lemma ResultKeyLayout()
    ensures ResultKey("j", "csv") == "jobs/j/result.csv"
  {
  }

  lemma KeyWidth(id: string, n: nat)
    ensures |PageKey(id, n)| == 17 + |id| + if |Text.Decimal(n)| <= 5 then 5 else |Text.Decimal(n)|
  {
    Text.PadWidth(n);
  }

  /** The drift verdict's own wording carries rates and is left out. */
  const DRIFT_REASON := "possible selector drift"

  function FailureNote(pagesFailed: nat): string {
    Text.Decimal(pagesFailed) + " page(s) failed permanently"
  }

  /** How a finalised job ends: the drift verdict comes before failed pages. */
  function OutcomeOf(key: string, emitted: seq<Row>, suspect: bool, pagesFailed: nat, bytes: nat): Repo.Outcome {
    if suspect then Repo.Outcome(SUSPECT, Some(DRIFT_REASON), key, bytes, |emitted|)
    else if pagesFailed > 0 then Repo.Outcome(PARTIAL, Some(FailureNote(pagesFailed)), key, bytes, |emitted|)
    else Repo.Outcome(SUCCEEDED, None, key, bytes, |emitted|)
  }

  class ObjectStore {
    var blobs: Blobs

    constructor ()
      ensures blobs == map[]
    {
      blobs := map[];
    }

    method Put(key: string, blob: Blob)
      modifies this
      ensures blobs == old(blobs)[key := blob]
    {
      blobs := blobs[key := blob];
    }

    method LoadRows(results: seq<PageResult>) returns (r: Result<seq<Row>, string>)
      ensures r == RowsOf(SortByPage(results), blobs)
    {
      var sorted := SortByPage(results);
      var rows := [];
      for i := 0 to |sorted|
        invariant RowsOf(sorted[..i], blobs) == Ok(rows)
      {
        assert sorted[..i + 1][..i] == sorted[..i];
        if sorted[i].Done? {
          if sorted[i].key !in blobs {
            MissingStays(sorted, blobs, i + 1);
            return Err(sorted[i].key);
          }
          rows := rows + blobs[sorted[i].key].rows;
        }
      }
      assert sorted[..|sorted|] == sorted;
      r := Ok(rows);
    }
  }

  lemma {:induction false} MissingStays(results: seq<PageResult>, blobs: Blobs, i: nat)
    requires i <= |results| && RowsOf(results[..i], blobs).Err?
    ensures RowsOf(results, blobs) == RowsOf(results[..i], blobs)
  {
    if i == |results| {
      assert results[..i] == results;
    } else {
      assert results[..|results| - 1][..i] == results[..i];
      MissingStays(results[..|results| - 1], blobs, i);
    }
  }

  /** The second transaction over the shared tables. */
  method SettleRun(snapshots: Dedupe.SnapshotTable, baselines: Drift.DriftBaselines, target: string,
                   rows: seq<Row>, results: seq<PageResult>, incremental: bool)
    returns (r: Result<(seq<Row>, Drift.Verdict), Dedupe.Error>)
    modifies snapshots, baselines
    ensures var t := Target(snapshots.rowKey, snapshots.hash, baselines.minRatio);
            var before := Shared(old(snapshots.stored), old(baselines.Get(target)));
            match SettleTx(t, before, rows, PagesDone(results), incremental)
            case Err(e) => r == Err(e) && snapshots.stored == old(snapshots.stored)
              && baselines.table == old(baselines.table)
            case Ok(s) =>
              && r.Ok? && r.value.0 == s.emitted && r.value.1.suspect == s.suspect
              && Shared(snapshots.stored, baselines.Get(target)) == s.shared
    ensures baselines.table - {target} == old(baselines.table) - {target}
  {
    var emitted := rows;
    if incremental {
      var diff := snapshots.DiffAgainstSnapshot(rows);
      emitted := diff.Rows();
    }
    var stored := snapshots.Store(rows);
    if stored.Err? {
      return Err(stored.error);
    }
    var pagesDone := 0;
    for i := 0 to |results|
      invariant pagesDone == PagesDone(results[..i])
    {
      assert results[..i + 1][..i] == results[..i];
      if !results[i].Failed? {
        pagesDone := pagesDone + 1;
      }
    }
    assert results[..|results|] == results;
    var verdict := baselines.Check(target, |rows|, pagesDone);
    if !verdict.suspect {
      baselines.UpdateBaseline(target, |rows|, pagesDone);
    }
    r := Ok((emitted, verdict));
  }

  // ----- assembly against the sequential loop -----

  /** One worker going through the pages in order, keeping those in `kept`. */
  function SequentialRows(pages: seq<nat>, kept: set<nat>, content: nat -> seq<Row>): seq<Row> {
    if pages == [] then []
    else
      var last := pages[|pages| - 1];
      SequentialRows(pages[..|pages| - 1], kept, content) + if last in kept then content(last) else []
  }

  /** The pages whose result carries a key. */
  function KeyedPages(results: seq<PageResult>): set<nat> {
    set r | r in results && r.Done? :: r.page
  }

  /** A chord's results: one for every page of its header, in any order. */
  ghost predicate Answers(results: seq<PageResult>, pages: seq<nat>) {
    && |results| == |pages|
    && DistinctPages(results)
    && (forall r :: r in results ==> r.page in pages)
    && (forall p :: p in pages ==> exists r :: r in results && r.page == p)
  }

  ghost predicate DistinctPages(rs: seq<PageResult>) {
    forall i, j :: 0 <= i < j < |rs| ==> rs[i].page != rs[j].page
  }

  function Pages(rs: seq<PageResult>): seq<nat> {
    seq(|rs|, i requires 0 <= i < |rs| => rs[i].page)
  }

  lemma {:induction false} InsertKeeps(r: PageResult, sorted: seq<PageResult>)
    ensures multiset(Insert(r, sorted)) == multiset(sorted) + multiset{r}
  {
    if sorted != [] && r.page > sorted[0].page {
      InsertKeeps(r, sorted[1..]);
      assert sorted == [sorted[0]] + sorted[1..];
    }
  }

  ghost predicate Strict(rs: seq<PageResult>) {
    forall i, j :: 0 <= i < j < |rs| ==> rs[i].page < rs[j].page
  }

  lemma {:induction false} InsertSorts(r: PageResult, sorted: seq<PageResult>)
    requires Strict(sorted) && forall x :: x in sorted ==> x.page != r.page
    ensures Strict(Insert(r, sorted))
    ensures forall x :: x in Insert(r, sorted) ==> x == r || x in sorted
  {
    if sorted != [] && r.page > sorted[0].page {
      InsertSorts(r, sorted[1..]);
      var rest := Insert(r, sorted[1..]);
      forall k | 0 <= k < |rest|
        ensures sorted[0].page < rest[k].page
      {
        assert rest[k] in rest;
      }
    }
  }

  lemma SameMembers(a: seq<PageResult>, b: seq<PageResult>)
    requires multiset(a) == multiset(b)
    ensures forall r :: r in a <==> r in b
  {
    forall r
      ensures r in a <==> r in b
    {
      assert r in a <==> r in multiset(a);
      assert r in b <==> r in multiset(b);
    }
  }

  lemma {:induction false} SortPermutes(results: seq<PageResult>)
    ensures multiset(SortByPage(results)) == multiset(results)
  {
    if results != [] {
      SortPermutes(results[1..]);
      InsertKeeps(results[0], SortByPage(results[1..]));
      assert results == [results[0]] + results[1..];
    }
  }

  lemma {:induction false} SortIsStrict(results: seq<PageResult>)
    requires DistinctPages(results)
    ensures Strict(SortByPage(results))
  {
    if results != [] {
      var r, rest := results[0], SortByPage(results[1..]);
      SortIsStrict(results[1..]);
      SortPermutes(results[1..]);
      SameMembers(rest, results[1..]);
      forall x | x in rest
        ensures x.page != r.page
      {
        var j :| 0 <= j < |results[1..]| && results[1..][j] == x;
        assert results[j + 1] == x;
      }
      InsertSorts(r, rest);
    }
  }

  /** Sorting permutes the results, and orders distinct pages strictly. */
  lemma SortSorts(results: seq<PageResult>)
    ensures multiset(SortByPage(results)) == multiset(results)
    ensures DistinctPages(results) ==> Strict(SortByPage(results))
  {
    SortPermutes(results);
    if DistinctPages(results) {
      SortIsStrict(results);
    }
  }

  lemma {:induction false} SameAscending(a: seq<nat>, b: seq<nat>)
    requires Repo.Ascending(a) && Repo.Ascending(b)
    requires forall p :: p in a <==> p in b
    ensures a == b
  {
    assert a != [] ==> a[0] in b;
    assert b != [] ==> b[0] in a;
    if a != [] {
      var x, y := a[|a| - 1], b[|b| - 1];
      assert x in b && y in a;
      assert x == y;
      var a', b' := a[..|a| - 1], b[..|b| - 1];
      forall p
        ensures p in a' <==> p in b'
      {
        assert p in a <==> p in a' || p == x;
        assert p in b <==> p in b' || p == y;
        assert x !in a' && y !in b';
      }
      SameAscending(a', b');
    }
  }

  /** Sorted by page, a chord's results line up with its header. */
  lemma SortedPagesAreHeader(results: seq<PageResult>, pages: seq<nat>)
    requires Answers(results, pages) && Repo.Ascending(pages)
    ensures Pages(SortByPage(results)) == pages
  {
    var sorted := SortByPage(results);
    SortSorts(results);
    SameMembers(sorted, results);
    forall p
      ensures p in Pages(sorted) <==> p in pages
    {
      PagesHave(sorted, p);
    }
    SameAscending(Pages(sorted), pages);
  }

  lemma PagesHave(rs: seq<PageResult>, p: nat)
    ensures p in Pages(rs) <==> exists r :: r in rs && r.page == p
  {
    if p in Pages(rs) {
      var i :| 0 <= i < |rs| && Pages(rs)[i] == p;
      assert rs[i] in rs;
    }
    if r :| r in rs && r.page == p {
      var i :| 0 <= i < |rs| && rs[i] == r;
      assert Pages(rs)[i] == p;
    }
  }

  lemma KeyedIffDone(results: seq<PageResult>, r: PageResult)
    requires DistinctPages(results) && r in results
    ensures r.Done? <==> r.page in KeyedPages(results)
  {
    if r.page in KeyedPages(results) {
      var q :| q in results && q.Done? && q.page == r.page;
      var i :| 0 <= i < |results| && results[i] == q;
      var j :| 0 <= j < |results| && results[j] == r;
    }
  }

  /** However a chord's results are ordered, loading them gives what one worker
      would have collected page by page, from the pages whose result carries a key. */
  lemma LoadIsSequential(results: seq<PageResult>, pages: seq<nat>, blobs: Blobs, content: nat -> seq<Row>)
    requires Answers(results, pages) && Repo.Ascending(pages)
    requires forall r :: r in results && r.Done? ==> r.key in blobs && blobs[r.key].rows == content(r.page)
    ensures LoadRows(results, blobs) == Ok(SequentialRows(pages, KeyedPages(results), content))
  {
    var sorted := SortByPage(results);
    SortedPagesAreHeader(results, pages);
    SortSorts(results);
    SameMembers(sorted, results);
    forall r | r in sorted
      ensures r.Done? <==> r.page in KeyedPages(results)
    {
      KeyedIffDone(results, r);
    }
    RowsInOrder(sorted, blobs, KeyedPages(results), content);
  }

  lemma {:induction false} RowsInOrder(sorted: seq<PageResult>, blobs: Blobs, kept: set<nat>, content: nat -> seq<Row>)
    requires forall r :: r in sorted ==> (r.Done? <==> r.page in kept)
    requires forall r :: r in sorted && r.Done? ==> r.key in blobs && blobs[r.key].rows == content(r.page)
    ensures RowsOf(sorted, blobs) == Ok(SequentialRows(Pages(sorted), kept, content))
  {
    if sorted != [] {
      var front, last := sorted[..|sorted| - 1], sorted[|sorted| - 1];
      assert forall r :: r in front ==> r in sorted;
      assert last in sorted;
      RowsInOrder(front, blobs, kept, content);
      assert Pages(sorted)[..|Pages(sorted)| - 1] == Pages(front);
      assert Pages(sorted)[|sorted| - 1] == last.page;
      if !last.Done? {
        assert SequentialRows(Pages(sorted), kept, content) == SequentialRows(Pages(front), kept, content);
      }
    }
  }
}
