/** The job tables (scrapequeue/db/repo.py, scrapequeue/db/tables.py), resume
    planning (queue/checkpoint.py) and the transactions that the tasks and the API
    run on them.  Each transaction is serialised: it commits or rolls back whole. */
module Repo {
  import opened Wrappers
  import opened States
  import Text

  datatype Job = Job(
    state: JobState, maxPages: nat, attempts: nat, lostWorkers: nat, pagesTotal: Option<nat>,
    pagesDone: nat, pagesFailed: nat, rows: nat,
    resultKey: Option<string>, resultBytes: Option<nat>, error: Option<string>,
    startedAt: Option<int>, finishedAt: Option<int>)

  datatype FailedPage = FailedPage(attempts: nat, errorType: string, error: string)

  /** The payload is a JSON object; None and the empty one are stored alike. */
  type Payload = map<string, string>

  datatype DeadLetter = DeadLetter(reason: string, detail: string, payload: Payload)

  /** A job row with the rows that refer to it: job_pages as page to row count,
      failed_pages by page, dead_letters in order. */
  datatype Record = Record(job: Job, pages: map<nat, nat>, failed: map<nat, FailedPage>, dead: seq<DeadLetter>)

  datatype Error = IllegalTransition(current: JobState, target: JobState) | Conflict(state: JobState)

  function Created(maxPages: nat): Record {
    Record(Job(PENDING, maxPages, 0, 0, None, 0, 0, 0, None, None, None, None, None), map[], map[], [])
  }

  /** The first n characters, or all of a shorter text. */
  function Take(s: string, n: nat): string {
    if |s| <= n then s else s[..n]
  }

  function Moved(job: Job, target: JobState, error: Option<string>, now: int): Result<Job, Error> {
    if !CanTransition(job.state, target) then Err(IllegalTransition(job.state, target))
    else
      Ok(job.(state := target,
              startedAt := if target == RUNNING && job.startedAt.None? then Some(now) else job.startedAt,
              finishedAt := if target in TERMINAL_STATES then Some(now) else job.finishedAt,
              error := if error.Some? then Some(Take(error.value, 4000)) else job.error))
  }

  /** ON CONFLICT DO NOTHING, and the counters only if the row was inserted. */
  function PageRecorded(r: Record, page: nat, rows: nat): Record {
    if page in r.pages then r
    else r.(pages := r.pages[page := rows],
            job := r.job.(pagesDone := r.job.pagesDone + 1, rows := r.job.rows + rows))
  }

  /** ON CONFLICT DO UPDATE keeps the first error type; the counter always grows. */
  function PageFailed(r: Record, page: nat, attempts: nat, errorType: string, error: string): Record {
    var kept := if page in r.failed then r.failed[page].errorType else Take(errorType, 64);
    r.(failed := r.failed[page := FailedPage(attempts, kept, Take(error, 4000))],
       job := r.job.(pagesFailed := r.job.pagesFailed + 1))
  }

  function Parked(r: Record, letter: DeadLetter): Record {
    r.(dead := r.dead + [DeadLetter(Take(letter.reason, 32), Take(letter.detail, 4000), letter.payload)])
  }

  // ----- resume planning -----

  /** The pages of 1..n that are not done. */
  function PagesToFetch(done: set<nat>, n: nat): seq<nat> {
    if n == 0 then [] else PagesToFetch(done, n - 1) + if n in done then [] else [n]
  }

  ghost predicate InRange(done: set<nat>, n: nat) {
    forall p :: p in done ==> 1 <= p <= n
  }

  ghost predicate Ascending(pages: seq<nat>) {
    forall i, j :: 0 <= i < j < |pages| ==> pages[i] < pages[j]
  }

  /** A plan lists exactly the missing pages, in ascending order. */
  lemma {:induction false} PlanIsMissingPages(done: set<nat>, n: nat)
    ensures forall p :: p in PagesToFetch(done, n) <==> 1 <= p <= n && p !in done
    ensures Ascending(PagesToFetch(done, n))
  {
    if n > 0 {
      PlanIsMissingPages(done, n - 1);
      var front := PagesToFetch(done, n - 1);
      forall i | 0 <= i < |front|
        ensures front[i] < n
      {
        assert front[i] in front;
      }
    }
  }

  /** Nothing is planned twice and nothing is forgotten: done and pending add up. */
  lemma {:induction false} PlanConservation(done: set<nat>, n: nat)
    requires InRange(done, n)
    ensures |done| + |PagesToFetch(done, n)| == n
  {
    if n == 0 {
      assert done == {} by {
        if p :| p in done { assert false; }
      }
    } else {
      PlanConservation(done - {n}, n - 1);
      PlanIgnores(done, n, n - 1);
    }
  }

  lemma {:induction false} PlanIgnores(done: set<nat>, above: nat, n: nat)
    requires above > n
    ensures PagesToFetch(done - {above}, n) == PagesToFetch(done, n)
  {
    if n > 0 {
      PlanIgnores(done, above, n - 1);
    }
  }

  // ----- transactions, as functions of the record -----

  const POISON_PILL := "poison pill"
  const CANCELLED_BY_CALLER := "cancelled by caller"

  function RedeliveryNote(lost: nat): string {
    "redelivered " + Text.Decimal(lost) + " times"
  }

  datatype Crawl = Finished | Poisoned(record: Record) | Planned(record: Record, pending: seq<nat>)

  /** The transaction of crawl_job.  A RUNNING job means that a worker was lost; the
      transitions that it makes are always allowed. */
  function CrawlTx(r: Record, threshold: int, now: int): Crawl {
    var job := r.job;
    if job.state in TERMINAL_STATES then Finished
    else
      var lost := job.lostWorkers + 1;
      if job.state == RUNNING && lost >= threshold then
        var dead := Moved(job.(lostWorkers := lost), DEAD_LETTER, Some(POISON_PILL), now).value;
        Poisoned(Parked(r.(job := dead), DeadLetter("poison_pill", RedeliveryNote(lost), map[])))
      else
        var running := if job.state == RUNNING then job.(lostWorkers := lost) else Moved(job, RUNNING, None, now).value;
        Planned(r.(job := running.(attempts := running.attempts + 1, pagesTotal := Some(running.maxPages))),
                PagesToFetch(r.pages.Keys, job.maxPages))
  }

  function CancelTx(r: Record, now: int): Result<Record, Error> {
    if r.job.state in TERMINAL_STATES then Err(Conflict(r.job.state))
    else
      match Moved(r.job, CANCELLED, Some(CANCELLED_BY_CALLER), now)
      case Err(e) => Err(e)
      case Ok(job) => Ok(r.(job := job))
  }

  /** deadletter.park: the record is added first, and rolled back with the rest if
      the job cannot move. */
  function ParkTx(r: Record, letter: DeadLetter, now: int): Result<Record, Error> {
    var parked := Parked(r, letter);
    if r.job.state == DEAD_LETTER then Ok(parked)
    else
      match Moved(r.job, DEAD_LETTER, Some(letter.detail), now)
      case Err(e) => Err(e)
      case Ok(job) => Ok(parked.(job := job))
  }

  datatype Outcome = Outcome(state: JobState, error: Option<string>, key: string, bytes: nat, rows: nat)

  /** The third transaction of finalise_job. */
  function FinishTx(r: Record, o: Outcome, now: int): Result<Record, Error> {
    var filled := r.job.(resultKey := Some(o.key), resultBytes := Some(o.bytes), rows := o.rows);
    match Moved(filled, o.state, o.error, now)
    case Err(e) => Err(e)
    case Ok(job) => Ok(r.(job := job))
  }

  /** What a transaction leaves behind: its own record, or the old one if it raised. */
  function Committed(r: Record, result: Result<Record, Error>): Record {
    if result.Ok? then result.value else r
  }

  // ----- what the transactions leave, in numbers -----

  /** `kept` is the text, cut to the width of its column. */
  predicate Cut(kept: string, text: string, width: nat) {
    |kept| <= width && kept <= text && (|text| <= width ==> kept == text)
  }

  /** A move stamps the first start and the end, and replaces the error if it has one. */
  lemma MoveStamps(job: Job, target: JobState, error: Option<string>, now: int)
    requires CanTransition(job.state, target)
    ensures var r := Moved(job, target, error, now);
            && r.Ok? && r.value.state == target
            && (job.startedAt.Some? || target != RUNNING ==> r.value.startedAt == job.startedAt)
            && (job.startedAt.None? && target == RUNNING ==> r.value.startedAt == Some(now))
            && r.value.finishedAt == (if target in TERMINAL_STATES then Some(now) else job.finishedAt)
            && (error.None? ==> r.value.error == job.error)
            && r.value.(state := job.state, error := job.error, startedAt := job.startedAt,
                        finishedAt := job.finishedAt) == job
            && (error.Some? ==> r.value.error.Some? && Cut(r.value.error.value, error.value, 4000))
  {
  }

  /** Failing twice leaves one row: the first kind of error, the last attempts and text. */
  lemma FailureIsUpserted(r: Record, page: nat, first: FailedPage, last: FailedPage)
    requires page !in r.failed
    ensures var once := PageFailed(r, page, first.attempts, first.errorType, first.error);
            var twice := PageFailed(once, page, last.attempts, last.errorType, last.error);
            && twice.failed.Keys == r.failed.Keys + {page} && twice.job.pagesFailed == r.job.pagesFailed + 2
            && twice.failed[page].attempts == last.attempts
            && Cut(twice.failed[page].errorType, first.errorType, 64) && Cut(twice.failed[page].error, last.error, 4000)
  {
  }

  /** A first or resumed planning of a job. */
  lemma PlanningCounts(r: Record, threshold: int, now: int)
    requires CrawlTx(r, threshold, now).Planned?
    ensures var r' := CrawlTx(r, threshold, now).record;
            var job := r'.job;
            && r'.pages == r.pages && r'.failed == r.failed && r'.dead == r.dead
            && job.attempts == r.job.attempts + 1 && job.pagesTotal == Some(r.job.maxPages)
            && job.lostWorkers == r.job.lostWorkers + (if r.job.state == RUNNING then 1 else 0)
            && (r.job.state != RUNNING && r.job.startedAt.None? ==> job.startedAt == Some(now))
  {
  }

  /** The letter of a poison pill says how often it was redelivered. */
  lemma PoisonIsParked(r: Record, threshold: int, now: int)
    requires CrawlTx(r, threshold, now).Poisoned?
    ensures var r' := CrawlTx(r, threshold, now).record;
            && r'.job.error == Some("poison pill") && r'.job.finishedAt == Some(now)
            && r'.job.lostWorkers == r.job.lostWorkers + 1 && r'.job.attempts == r.job.attempts
            && r'.pages == r.pages && r'.failed == r.failed
            && |r'.dead| == |r.dead| + 1
            && r'.dead[|r.dead|].reason == "poison_pill" && r'.dead[|r.dead|].payload == map[]
            && Cut(r'.dead[|r.dead|].detail, "redelivered " + Text.Decimal(r.job.lostWorkers + 1) + " times", 4000)
  {
  }

  /** Exactly the jobs that have not ended can be cancelled. */
  lemma CancelEnds(r: Record, now: int)
    ensures CancelTx(r, now).Ok? <==> r.job.state !in TERMINAL_STATES
    ensures CancelTx(r, now).Ok? ==>
              CancelTx(r, now).value
              == r.(job := r.job.(state := CANCELLED, error := Some("cancelled by caller"), finishedAt := Some(now)))
  {
  }

  /** Exactly the jobs that are RUNNING or parked already can be parked, and each time
      adds a letter. */
  lemma ParkEnds(r: Record, letter: DeadLetter, now: int)
    ensures ParkTx(r, letter, now).Ok? <==> r.job.state in {RUNNING, DEAD_LETTER}
    ensures ParkTx(r, letter, now).Ok? ==>
              var r' := ParkTx(r, letter, now).value;
              && r'.job.state == DEAD_LETTER && |r'.dead| == |r.dead| + 1 && r'.dead[..|r.dead|] == r.dead
              && Cut(r'.dead[|r.dead|].reason, letter.reason, 32) && Cut(r'.dead[|r.dead|].detail, letter.detail, 4000)
              && r'.dead[|r.dead|].payload == letter.payload
              && (r.job.state == RUNNING ==> r'.job.error.Some? && Cut(r'.job.error.value, letter.detail, 4000))
  {
  }

  // ----- the database -----

  class Database {
    var records: map<string, Record>

    constructor ()
      ensures records == map[]
    {
      records := map[];
    }

    method Transition(id: string, target: JobState, error: Option<string>, now: int) returns (r: Result<(), Error>)
      requires id in records
      modifies this
      ensures match Moved(old(records)[id].job, target, error, now)
              case Ok(job) => r == Ok(()) && records == old(records)[id := old(records)[id].(job := job)]
              case Err(e) => r == Err(e) && records == old(records)
    {
      var job := records[id].job;
      if !CanTransition(job.state, target) {
        return Err(IllegalTransition(job.state, target));
      }
      job := job.(state := target);
      if target == RUNNING && job.startedAt.None? {
        job := job.(startedAt := Some(now));
      }
      if target in TERMINAL_STATES {
        job := job.(finishedAt := Some(now));
      }
      if error.Some? {
        job := job.(error := Some(Take(error.value, 4000)));
      }
      records := records[id := records[id].(job := job)];
      r := Ok(());
    }

    method RecordPage(id: string, page: nat, rows: nat) returns (inserted: bool)
      requires id in records
      modifies this
      ensures inserted <==> page !in old(records)[id].pages
      ensures records == old(records)[id := PageRecorded(old(records)[id], page, rows)]
    {
      var r := records[id];
      if page in r.pages {
        return false;
      }
      r := r.(pages := r.pages[page := rows]);
      r := r.(job := r.job.(pagesDone := r.job.pagesDone + 1, rows := r.job.rows + rows));
      records := records[id := r];
      inserted := true;
    }

    method RecordFailedPage(id: string, page: nat, attempts: nat, errorType: string, error: string)
      requires id in records
      modifies this
      ensures records == old(records)[id := PageFailed(old(records)[id], page, attempts, errorType, error)]
    {
      var r := records[id];
      var row := FailedPage(attempts, Take(errorType, 64), Take(error, 4000));
      if page in r.failed {
        row := r.failed[page].(attempts := attempts, error := Take(error, 4000));
      }
      r := r.(failed := r.failed[page := row]);
      records := records[id := r.(job := r.job.(pagesFailed := r.job.pagesFailed + 1))];
    }

    method ParkDeadLetter(id: string, reason: string, detail: string, payload: Payload)
      requires id in records
      modifies this
      ensures records == old(records)[id := Parked(old(records)[id], DeadLetter(reason, detail, payload))]
    {
      var r := records[id];
      records := records[id := r.(dead := r.dead + [DeadLetter(Take(reason, 32), Take(detail, 4000), payload)])];
    }

    method BumpLostWorker(id: string) returns (lost: nat)
      requires id in records
      modifies this
      ensures lost == old(records)[id].job.lostWorkers + 1
      ensures records == old(records)[id := old(records)[id].(job := old(records)[id].job.(lostWorkers := lost))]
    {
      var r := records[id];
      lost := r.job.lostWorkers + 1;
      records := records[id := r.(job := r.job.(lostWorkers := lost))];
    }

    /** The transaction of crawl_job, statement by statement. */
    method CrawlJob(id: string, threshold: int, now: int) returns (r: Crawl)
      requires id in records
      modifies this
      ensures r == CrawlTx(old(records)[id], threshold, now)
      ensures records == if r.Finished? then old(records) else old(records)[id := r.record]
    {
      var state := records[id].job.state;
      if state in TERMINAL_STATES {
        return Finished;
      }
      if state == RUNNING {
        var lost := BumpLostWorker(id);
        if lost >= threshold {
          var _ := Transition(id, DEAD_LETTER, Some(POISON_PILL), now);
          ParkDeadLetter(id, "poison_pill", RedeliveryNote(lost), map[]);
          return Poisoned(records[id]);
        }
      } else {
        var _ := Transition(id, RUNNING, None, now);
      }
      var job := records[id].job;
      job := job.(attempts := job.attempts + 1);
      job := job.(pagesTotal := Some(job.maxPages));
      records := records[id := records[id].(job := job)];
      var pending := PlanPages(id, job.maxPages);
      r := Planned(records[id], pending);
    }

    /** checkpoint.pages_to_fetch */
    method PlanPages(id: string, maxPages: nat) returns (pending: seq<nat>)
      requires id in records
      ensures pending == PagesToFetch(records[id].pages.Keys, maxPages)
    {
      var done := records[id].pages.Keys;
      pending := [];
      for page := 1 to maxPages + 1
        invariant pending == PagesToFetch(done, page - 1)
      {
        if page !in done {
          pending := pending + [page];
        }
      }
    }

    method CancelJob(id: string, now: int) returns (r: Result<(), Error>)
      requires id in records
      modifies this
      ensures records == old(records)[id := Committed(old(records)[id], CancelTx(old(records)[id], now))]
      ensures r.Ok? <==> CancelTx(old(records)[id], now).Ok?
    {
      if records[id].job.state in TERMINAL_STATES {
        return Err(Conflict(records[id].job.state));
      }
      r := Transition(id, CANCELLED, Some(CANCELLED_BY_CALLER), now);
    }

    method Park(id: string, reason: string, detail: string, payload: Option<Payload>, now: int)
        returns (r: Result<(), Error>)
      requires id in records
      modifies this
      ensures var letter := DeadLetter(reason, detail, if payload.Some? then payload.value else map[]);
              && records == old(records)[id := Committed(old(records)[id], ParkTx(old(records)[id], letter, now))]
              && (r.Ok? <==> ParkTx(old(records)[id], letter, now).Ok?)
    {
      var saved := records;
      ParkDeadLetter(id, reason, detail, if payload.Some? then payload.value else map[]);
      r := Ok(());
      if records[id].job.state != DEAD_LETTER {
        r := Transition(id, DEAD_LETTER, Some(detail), now);
        if r.Err? {
          records := saved;
        }
      }
    }

    /** The last transaction of finalise_job: the job row is filled in before the
        transition is checked, and all of it rolls back if that raises. */
    method FinishJob(id: string, o: Outcome, now: int) returns (r: Result<(), Error>)
      requires id in records
      modifies this
      ensures records == old(records)[id := Committed(old(records)[id], FinishTx(old(records)[id], o, now))]
      ensures r.Ok? <==> FinishTx(old(records)[id], o, now).Ok?
    {
      var saved := records;
      var job := records[id].job;
      job := job.(resultKey := Some(o.key));
      job := job.(resultBytes := Some(o.bytes));
      job := job.(rows := o.rows);
      records := records[id := records[id].(job := job)];
      r := Transition(id, o.state, o.error, now);
      if r.Err? {
        records := saved;
      }
    }
  }
}
