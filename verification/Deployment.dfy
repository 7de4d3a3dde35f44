/** Many jobs over one object store and one snapshot and baseline per target: every
    job's part of a run of the whole system is a run of the crawl protocol, so all that
    holds for one job's runs holds for every job in company. */
module Deployment {
  import opened Wrappers
  import opened Repo
  import opened Export
  import opened Crawl
  import opened CrawlRuns
  import Dedupe

  /** What is fixed for a job id: its configuration, its target's name, and the format
      of its result. */
  datatype Setting = Setting(cfg: string -> Config, target: string -> string, format: string -> string)

  datatype Local = Local(record: Record, plans: seq<Plan>, workers: map<nat, Worker>, finalisers: map<nat, Finaliser>)

  datatype World = World(jobs: map<string, Local>, blobs: Blobs, targets: map<string, Shared>)

  datatype WorldStep = Submit(id: string) | Act(id: string, step: Step)

  ghost predicate KeysAreTheJobs(d: Setting) {
    forall id :: KeysOf(d.cfg(id), id, d.format(id))
  }

  function SharedOf(w: World, target: string): Shared {
    if target in w.targets then w.targets[target] else Shared(map[], None)
  }

  /** The state of one job's protocol inside the system. */
  function View(d: Setting, w: World, id: string): State
    requires id in w.jobs
  {
    var job := w.jobs[id];
    State(job.record, job.plans, job.workers, job.finalisers, w.blobs, SharedOf(w, d.target(id)))
  }

  predicate FromOthers(step: Step) { step.OthersStore? || step.OthersSettle? }

  /** A new id is a fresh UUID; a step of a job's protocol changes its own part, the
      object store and its target's shared state. */
  ghost function Next(d: Setting, w: World, step: WorldStep): World {
    match step
    case Submit(id) =>
      if id in w.jobs || '/' in id then w
      else w.(jobs := w.jobs[id := Local(Created(d.cfg(id).maxPages), [], map[], map[])])
    case Act(id, step) =>
      if id !in w.jobs || FromOthers(step) then w
      else
        var s := Apply(d.cfg(id), View(d, w, id), step);
        World(w.jobs[id := Local(s.record, s.plans, s.workers, s.finalisers)], s.blobs,
          w.targets[d.target(id) := s.shared])
  }

  ghost function History(d: Setting, w: World, steps: seq<WorldStep>): World {
    if steps == [] then w else Next(d, History(d, w, steps[..|steps| - 1]), steps[|steps| - 1])
  }

  // ----- what one job's step does to the others -----

  /** The object that a step writes, if it writes one. */
  ghost function Written(cfg: Config, s: State, step: Step): Option<(string, Blob)> {
    match step
    case PutPage(w) =>
      if w in s.workers && s.workers[w].Fetched?
        then Some((cfg.pageKey(s.workers[w].page), PageBlob(s.workers[w].rows))) else None
    case Upload(f) =>
      if f in s.finalisers && s.finalisers[f].Settled?
        then Some((cfg.resultKey, ResultBlob(s.finalisers[f].emitted))) else None
    case _ => None
  }

  lemma StepWrites(cfg: Config, s: State, step: Step)
    requires !FromOthers(step)
    ensures var s', put := Apply(cfg, s, step), Written(cfg, s, step);
            && s'.blobs == (if put.Some? then s.blobs[put.value.0 := put.value.1] else s.blobs)
            && (put.Some? ==> s'.shared == s.shared)
  {
  }

  lemma WrittenIsOwn(cfg: Config, s: State, step: Step)
    requires Written(cfg, s, step).Some?
    ensures OwnKey(cfg, Written(cfg, s, step).value.0)
  {
  }

  lemma OwnKeysAreApart(d: Setting, a: string, b: string, key: string)
    requires KeysAreTheJobs(d) && '/' !in a && '/' !in b && a != b && OwnKey(d.cfg(a), key)
    ensures !OwnKey(d.cfg(b), key)
  {
    assert KeysOf(d.cfg(a), a, d.format(a)) && KeysOf(d.cfg(b), b, d.format(b));
    if OwnKey(d.cfg(b), key) {
      var p: nat, q: nat := 0, 0;
      if key != d.cfg(a).resultKey {
        p :| key == d.cfg(a).pageKey(p);
      }
      if key != d.cfg(b).resultKey {
        q :| key == d.cfg(b).pageKey(q);
      }
      KeysAreDistinct(a, b, p, q, d.format(a), d.format(b));
      KeysAreDistinct(b, a, q, p, d.format(b), d.format(a));
    }
  }

  // ----- the whole system -----

  ghost predicate WorldOk(d: Setting, w: World) {
    (forall id :: id in w.jobs ==> JobOk(d, w, id)) && KeysAreOwned(d, w)
  }

  lemma ReachableStep(cfg: Config, s: State, step: Step)
    requires Reachable(cfg, s)
    ensures Reachable(cfg, Apply(cfg, s, step))
  {
    var blobs, shared, steps :| FreshJob(cfg, blobs) && s == Run(cfg, Init(cfg, blobs, shared), steps);
    var all := steps + [step];
    assert all[..|all| - 1] == steps && all[|all| - 1] == step;
    assert Apply(cfg, s, step) == Run(cfg, Init(cfg, blobs, shared), all);
  }

  lemma ReachableStore(cfg: Config, s: State, key: string, blob: Blob)
    requires Reachable(cfg, s) && !OwnKey(cfg, key)
    ensures Reachable(cfg, s.(blobs := s.blobs[key := blob]))
  {
    ReachableStep(cfg, s, OthersStore(key, blob));
  }

  lemma ReachableSettle(cfg: Config, s: State, shared: Shared)
    requires Reachable(cfg, s)
    ensures Reachable(cfg, s.(shared := shared))
  {
    ReachableStep(cfg, s, OthersSettle(shared));
  }

  ghost predicate JobOk(d: Setting, w: World, id: string)
    requires id in w.jobs
  {
    '/' !in id && Reachable(d.cfg(id), View(d, w, id))
  }

  lemma SubmittedIsReachable(d: Setting, w: World, id: string)
    requires KeysAreTheJobs(d) && WorldOk(d, w) && id !in w.jobs && '/' !in id
    ensures JobOk(d, Next(d, w, Submit(id)), id)
  {
    var cfg := d.cfg(id);
    JobKeysAreDistinct(cfg, id, d.format(id));
    forall key | key in w.blobs
      ensures !OwnKey(cfg, key)
    {
      var other :| other in w.jobs && OwnKey(d.cfg(other), key);
      OwnKeysAreApart(d, other, id, key);
    }
    var init := Init(cfg, w.blobs, SharedOf(w, d.target(id)));
    assert FreshJob(cfg, w.blobs) && Run(cfg, init, []) == init;
    assert View(d, Next(d, w, Submit(id)), id) == init;
  }

  lemma ActorStaysReachable(d: Setting, w: World, id: string, step: Step)
    requires id in w.jobs && !FromOthers(step) && JobOk(d, w, id)
    ensures JobOk(d, Next(d, w, Act(id, step)), id)
  {
    ReachableStep(d.cfg(id), View(d, w, id), step);
    assert View(d, Next(d, w, Act(id, step)), id) == Apply(d.cfg(id), View(d, w, id), step);
  }

  /** Another job's step is, for this job, a foreign store, a foreign settlement, or nothing. */
  lemma BystanderSees(d: Setting, w: World, id: string, step: Step, other: string)
    requires id in w.jobs && other in w.jobs && id != other && !FromOthers(step)
    ensures var put := Written(d.cfg(id), View(d, w, id), step);
            var before, after := View(d, w, other), View(d, Next(d, w, Act(id, step)), other);
            if put.Some? then after == before.(blobs := before.blobs[put.value.0 := put.value.1])
            else after == before.(shared := after.shared)
  {
    StepWrites(d.cfg(id), View(d, w, id), step);
  }

  lemma BystanderStaysReachable(d: Setting, w: World, id: string, step: Step, other: string)
    requires KeysAreTheJobs(d) && id in w.jobs && other in w.jobs && id != other && !FromOthers(step)
    requires '/' !in id && JobOk(d, w, other)
    ensures JobOk(d, Next(d, w, Act(id, step)), other)
  {
    var put := Written(d.cfg(id), View(d, w, id), step);
    var before, after := View(d, w, other), View(d, Next(d, w, Act(id, step)), other);
    BystanderSees(d, w, id, step, other);
    if put.Some? {
      WrittenIsOwn(d.cfg(id), View(d, w, id), step);
      OwnKeysAreApart(d, id, other, put.value.0);
      ReachableStore(d.cfg(other), before, put.value.0, put.value.1);
    } else {
      ReachableSettle(d.cfg(other), before, after.shared);
    }
  }

  ghost predicate KeysAreOwned(d: Setting, w: World) {
    forall key :: key in w.blobs ==> exists id :: id in w.jobs && OwnKey(d.cfg(id), key)
  }

  lemma KeysStayOwned(d: Setting, w: World, step: WorldStep)
    requires KeysAreOwned(d, w)
    ensures KeysAreOwned(d, Next(d, w, step))
  {
    var w' := Next(d, w, step);
    forall key | key in w'.blobs
      ensures exists id :: id in w'.jobs && OwnKey(d.cfg(id), key)
    {
      if key in w.blobs {
        var id :| id in w.jobs && OwnKey(d.cfg(id), key);
        assert id in w'.jobs;
      } else {
        StepWrites(d.cfg(step.id), View(d, w, step.id), step.step);
        WrittenIsOwn(d.cfg(step.id), View(d, w, step.id), step.step);
      }
    }
  }

  lemma WorldKept(d: Setting, w: World, step: WorldStep)
    requires KeysAreTheJobs(d) && WorldOk(d, w)
    ensures WorldOk(d, Next(d, w, step))
  {
    var w' := Next(d, w, step);
    KeysStayOwned(d, w, step);
    if w' != w {
      forall other | other in w'.jobs
        ensures JobOk(d, w', other)
      {
        if step.Submit? {
          if other == step.id { SubmittedIsReachable(d, w, step.id); }
            else { assert View(d, w', other) == View(d, w, other); }
        } else if other == step.id {
          ActorStaysReachable(d, w, step.id, step.step);
        } else {
          BystanderStaysReachable(d, w, step.id, step.step, other);
        }
      }
    }
  }

  /** Every job of the system, in every state that the system can reach, is in a state
      that its own protocol can reach. */
  lemma {:induction false} EveryJobRunsTheProtocol(d: Setting, targets: map<string, Shared>, steps: seq<WorldStep>)
    requires KeysAreTheJobs(d)
    ensures WorldOk(d, History(d, World(map[], map[], targets), steps))
  {
    if steps != [] {
      EveryJobRunsTheProtocol(d, targets, steps[..|steps| - 1]);
      WorldKept(d, History(d, World(map[], map[], targets), steps[..|steps| - 1]), steps[|steps| - 1]);
    }
  }

  // ----- the shared snapshot of a target -----

  /** The rows that a step settles, if it does. */
  ghost function SettledRows(cfg: Config, s: State, step: Step): Option<seq<Row>> {
    if step.Settle? && step.f in s.finalisers && s.finalisers[step.f].Loaded? then
      var t := s.finalisers[step.f];
      if SettleTx(cfg.target, s.shared, t.rows, PagesDone(t.results), cfg.incremental).Ok? then Some(t.rows) else None
    else None
  }

  lemma StepSettles(cfg: Config, s: State, step: Step)
    requires !FromOthers(step)
    ensures SettledInto(cfg, s, step, Apply(cfg, s, step).shared.snapshot)
  {
    ApplyLeads(cfg, s, step);
    StepLeadsToSettled(cfg, s, step, Apply(cfg, s, step));
  }

  ghost predicate SettledInto(cfg: Config, s: State, step: Step, snapshot: Dedupe.Snapshot) {
    var key, rows := Dedupe.KeyBy(cfg.target.rowKey), SettledRows(cfg, s, step);
    if rows.Some? then Dedupe.StoreSnapshot(s.shared.snapshot, rows.value, key, cfg.target.hash) == Ok(snapshot)
    else snapshot == s.shared.snapshot
  }

  lemma StepLeadsToSettled(cfg: Config, s: State, step: Step, s': State)
    requires Leads(cfg, s, step, s') && !FromOthers(step)
    ensures SettledInto(cfg, s, step, s'.shared.snapshot)
  {
  }

  lemma {:induction false} DistinctRowsAreKept(rows: seq<Row>, key: Dedupe.Key, seen: set<string>)
    requires Dedupe.Distinct(rows, key) && forall i :: 0 <= i < |rows| ==> key(rows[i]) !in seen
    ensures Dedupe.FirstOccurrences(rows, key, seen) == rows
  {
    if rows != [] {
      var rest := rows[1..];
      forall i | 0 <= i < |rest|
        ensures key(rest[i]) !in seen + {key(rows[0])}
      {
        assert rest[i] == rows[i + 1];
      }
      forall i, j | 0 <= i < j < |rest|
        ensures key(rest[i]) != key(rest[j])
      {
        assert rest[i] == rows[i + 1] && rest[j] == rows[j + 1];
      }
      DistinctRowsAreKept(rest, key, seen + {key(rows[0])});
    }
  }

  /** The rows settled for a target, in the order of their transactions. */
  ghost function Runs(d: Setting, w: World, steps: seq<WorldStep>, target: string): seq<seq<Row>> {
    if steps == [] then []
    else
      var front, last := steps[..|steps| - 1], steps[|steps| - 1];
      var before := History(d, w, front);
      Runs(d, w, front, target) + RunOf(d, before, last, target)
  }

  ghost function RunOf(d: Setting, w: World, step: WorldStep, target: string): seq<seq<Row>> {
    if step.Act? && step.id in w.jobs && d.target(step.id) == target
       && SettledRows(d.cfg(step.id), View(d, w, step.id), step.step).Some?
    then [SettledRows(d.cfg(step.id), View(d, w, step.id), step.step).value] else []
  }

  /** All jobs of a target name share its key and hash. */
  ghost predicate TargetIs(d: Setting, target: string, rowKey: seq<string>, hash: Dedupe.Hash) {
    rowKey != [] && forall id :: d.target(id) == target ==>
      d.cfg(id).target.rowKey == rowKey && d.cfg(id).target.hash == hash
  }

  lemma SettledIsUpserted(cfg: Config, s: State, step: Step, rowKey: seq<string>, hash: Dedupe.Hash)
    requires !FromOthers(step) && cfg.target.rowKey == rowKey && cfg.target.hash == hash && rowKey != []
    ensures var before, after, rows := s.shared.snapshot, Apply(cfg, s, step).shared.snapshot,
            SettledRows(cfg, s, step);
            after == if rows.Some?
              then Dedupe.Upserted(before, Dedupe.Deduped(rows.value, rowKey), Dedupe.KeyBy(rowKey), hash) else before
  {
    StepSettles(cfg, s, step);
    if SettledRows(cfg, s, step).Some? {
      var rows := SettledRows(cfg, s, step).value;
      Dedupe.StoreSucceedsIffDistinct(s.shared.snapshot, rows, Dedupe.KeyBy(rowKey), hash);
      DistinctRowsAreKept(rows, Dedupe.KeyBy(rowKey), {});
    }
  }

  lemma StepKeepsSnapshot(d: Setting, w: World, step: WorldStep, target: string, rowKey: seq<string>, hash: Dedupe.Hash)
    requires TargetIs(d, target, rowKey, hash)
    ensures var before, after := SharedOf(w, target).snapshot, SharedOf(Next(d, w, step), target).snapshot;
            var run := RunOf(d, w, step, target);
            if run == [] then after == before
            else after == Dedupe.Upserted(before, Dedupe.Deduped(run[0], rowKey), Dedupe.KeyBy(rowKey), hash)
  {
    if step.Act? && step.id in w.jobs && !FromOthers(step.step) && d.target(step.id) == target {
      SettledIsUpserted(d.cfg(step.id), View(d, w, step.id), step.step, rowKey, hash);
    }
  }

  /** Whatever jobs share a target and however their finalisers interleave: its
      snapshot maps each identity to the hash of the row that represents it in the
      latest settled run that has it. */
  lemma {:induction false} SharedSnapshotIsHistory(d: Setting, steps: seq<WorldStep>, target: string,
                                                   rowKey: seq<string>, hash: Dedupe.Hash)
    requires TargetIs(d, target, rowKey, hash)
    ensures var w := World(map[], map[], map[]);
            SharedOf(History(d, w, steps), target).snapshot == Dedupe.AfterRuns(Runs(d, w, steps, target), rowKey, hash)
  {
    if steps != [] {
      var w, front := World(map[], map[], map[]), steps[..|steps| - 1];
      SharedSnapshotIsHistory(d, front, target, rowKey, hash);
      StepKeepsSnapshot(d, History(d, w, front), steps[|steps| - 1], target, rowKey, hash);
      var runs, run := Runs(d, w, front, target), RunOf(d, History(d, w, front), steps[|steps| - 1], target);
      if run != [] {
        assert run == [run[0]] && (runs + run)[..|runs + run| - 1] == runs;
      } else {
        assert runs + run == runs;
      }
    }
  }

  lemma SettleEmits(cfg: Config, s: State, f: nat)
    requires SettledRows(cfg, s, Crawl.Settle(f)).Some? && cfg.incremental
    ensures var t, s' := s.finalisers[f], Apply(cfg, s, Crawl.Settle(f));
            && f in s'.finalisers && s'.finalisers[f].Settled?
            && s'.finalisers[f].emitted
               == Dedupe.DiffOf(t.rows, Dedupe.KeyBy(cfg.target.rowKey), cfg.target.hash, s.shared.snapshot).Rows()
  {
  }

  /** So an incremental job that settles emits exactly those of its rows that are new
      or changed against all runs that any job of the target settled before. */
  lemma IncrementalEmitsNewsOnly(d: Setting, steps: seq<WorldStep>, target: string, rowKey: seq<string>,
                                 hash: Dedupe.Hash,
                                 id: string, f: nat, row: Row)
    requires TargetIs(d, target, rowKey, hash)
    requires var w := History(d, World(map[], map[], map[]), steps);
             && id in w.jobs && d.target(id) == target && d.cfg(id).incremental
             && SettledRows(d.cfg(id), View(d, w, id), Crawl.Settle(f)).Some?
    ensures var w := History(d, World(map[], map[], map[]), steps);
            var s := View(d, w, id);
            var s' := Apply(d.cfg(id), s, Crawl.Settle(f));
            var last := Dedupe.LastSeen(Runs(d, World(map[], map[], map[]), steps, target), Dedupe.KeyBy(rowKey),
              Dedupe.Identity(row, rowKey));
            && f in s'.finalisers && s'.finalisers[f].Settled?
            && (row in s'.finalisers[f].emitted <==>
                  row in s.finalisers[f].rows && (last.None? || hash(last.value) != hash(row)))
  {
    var w := History(d, World(map[], map[], map[]), steps);
    var runs := Runs(d, World(map[], map[], map[]), steps, target);
    var s := View(d, w, id);
    SharedSnapshotIsHistory(d, steps, target, rowKey, hash);
    SettleEmits(d.cfg(id), s, f);
    Dedupe.DiffIsAgainstHistory(runs, s.finalisers[f].rows, rowKey, hash);
  }
}
