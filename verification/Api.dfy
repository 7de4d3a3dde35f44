/** Submitting, cancelling and retrying jobs (scrapequeue/api/routes/jobs.py) with
    Idempotency-Key replay (core/idempotency.py) over the jobs table and its unique
    index.  Each request is one transaction; its lookup and its insert are two steps,
    so requests can overtake each other in between. */
module Api {
  import opened Wrappers
  import opened States
  import Repo

  /** The request body: its params, its max_pages, and the other fields as one value. */
  datatype Body = Body(params: map<string, string>, maxPages: nat, fields: string)

  datatype Row = Row(
    id: string, owner: string, key: Option<string>, fields: string, params: map<string, string>, job: Repo.Job)

  /** What the checks before the Idempotency-Key lookup answer. */
  datatype Checks = Checks(targetKnown: bool, hostAllowed: bool, hasCapacity: bool)

  /** `id` is the UUID that a new row gets. */
  datatype Submission = Submission(owner: string, key: Option<string>, body: Body, checks: Checks, id: string)

  datatype Reply =
    | UnknownTarget | BlockedHost | QueueFull | Conflict | NotFound
    | ServerError
    | Accepted(id: string, state: JobState, replay: bool)

  /** fingerprint: a digest, never empty; collisions are not excluded. */
  type Fingerprint = f: Body -> string | forall b: Body :: f(b) != "" witness (b: Body) => "0"

  const FINGERPRINT := "_fingerprint"
  const RETRY_OF := "_retry_of"

  // ----- the jobs table -----

  predicate Matches(row: Row, owner: string, key: string) {
    row.owner == owner && row.key == Some(key)
  }

  function FindByKey(jobs: seq<Row>, owner: string, key: string): (r: Option<Row>)
    ensures r.Some? ==> r.value in jobs && Matches(r.value, owner, key)
    ensures r.None? ==> forall row :: row in jobs ==> !Matches(row, owner, key)
  {
    if jobs == [] then None
    else if Matches(jobs[0], owner, key) then Some(jobs[0])
    else FindByKey(jobs[1..], owner, key)
  }

  function FindById(jobs: seq<Row>, id: string): (r: Option<nat>)
    ensures r.Some? ==> r.value < |jobs| && jobs[r.value].id == id
    ensures r.None? ==> forall row :: row in jobs ==> row.id != id
  {
    if jobs == [] then None
    else if jobs[0].id == id then Some(0)
    else
      var rest := FindById(jobs[1..], id);
      if rest.Some? then Some(rest.value + 1) else None
  }

  // ----- submit_job -----

  /** An empty header value is falsy: it is not looked up, but it is stored. */
  predicate LooksUp(s: Submission) {
    s.key.Some? && s.key.value != ""
  }

  /** The row's fingerprint was taken from another body. */
  predicate Mismatch(row: Row, fp: string) {
    FINGERPRINT in row.params && row.params[FINGERPRINT] != "" && row.params[FINGERPRINT] != fp
  }

  /** What is known after the lookup: a reply, or nothing yet. */
  function Lookup(jobs: seq<Row>, fingerprint: Fingerprint, s: Submission): Option<Reply> {
    if !s.checks.targetKnown then Some(UnknownTarget)
    else if !s.checks.hostAllowed then Some(BlockedHost)
    else if !s.checks.hasCapacity then Some(QueueFull)
    else if !LooksUp(s) then None
    else
      match FindByKey(jobs, s.owner, s.key.value)
      case None => None
      case Some(row) => if Mismatch(row, fingerprint(s.body)) then Some(Conflict)
        else Some(Accepted(row.id, row.job.state, true))
  }

  function NewRow(fingerprint: Fingerprint, s: Submission): Row {
    Row(s.id, s.owner, s.key, s.body.fields,
        if LooksUp(s) then s.body.params[FINGERPRINT := fingerprint(s.body)] else s.body.params,
        Repo.Created(s.body.maxPages).job)
  }

  /** The insert, which the unique index refuses if the key is taken. */
  function Insert(jobs: seq<Row>, fingerprint: Fingerprint, s: Submission): (seq<Row>, Reply) {
    if s.key.Some? && FindByKey(jobs, s.owner, s.key.value).Some? then (jobs, ServerError)
    else (jobs + [NewRow(fingerprint, s)], Accepted(s.id, PENDING, false))
  }

  function SubmitTx(jobs: seq<Row>, fingerprint: Fingerprint, s: Submission): (seq<Row>, Reply) {
    var reply := Lookup(jobs, fingerprint, s);
    if reply.Some? then (jobs, reply.value) else Insert(jobs, fingerprint, s)
  }

  // ----- cancel_job and retry_job -----

  datatype Principal = Principal(keyId: string, admin: bool)

  predicate Owns(p: Principal, row: Row) {
    p.admin || row.owner == p.keyId
  }

  function Cancelled(job: Repo.Job, now: int): Repo.Job
    requires job.state !in TERMINAL_STATES
  {
    Repo.Moved(job, CANCELLED, Some(Repo.CANCELLED_BY_CALLER), now).value
  }

  function CancelTx(jobs: seq<Row>, p: Principal, id: string, now: int): (seq<Row>, Option<Reply>) {
    match FindById(jobs, id)
    case None => (jobs, Some(NotFound))
    case Some(i) =>
      if !Owns(p, jobs[i]) then (jobs, Some(NotFound))
      else if jobs[i].job.state in TERMINAL_STATES then (jobs, Some(Conflict))
      else (jobs[i := jobs[i].(job := Cancelled(jobs[i].job, now))], None)
  }

  /** A retried job is a new row without an Idempotency-Key. */
  function RetryTx(jobs: seq<Row>, p: Principal, id: string, newId: string): (seq<Row>, Reply) {
    match FindById(jobs, id)
    case None => (jobs, NotFound)
    case Some(i) =>
      var row := jobs[i];
      if !Owns(p, row) then (jobs, NotFound)
      else if row.job.state !in TERMINAL_STATES then (jobs, Conflict)
      else
        var params := row.params[RETRY_OF := row.id];
        (jobs + [Row(newId, row.owner, None, row.fields, params, Repo.Created(row.job.maxPages).job)],
          Accepted(newId, PENDING, false))
  }

  /** The handlers over the table; `sent` are the crawl messages and `revoked` the
      tasks that cancelled jobs had revoked. */
  class JobsApi {
    var jobs: seq<Row>
    var sent: seq<string>
    var revoked: seq<string>
    const fingerprint: Fingerprint

    constructor (fingerprint: Fingerprint)
      ensures jobs == [] && sent == [] && revoked == [] && this.fingerprint == fingerprint
    {
      this.fingerprint := fingerprint;
      jobs, sent, revoked := [], [], [];
    }

    method SubmitJob(s: Submission) returns (reply: Reply)
      modifies this`jobs, this`sent
      ensures (jobs, reply) == SubmitTx(old(jobs), fingerprint, s)
      ensures sent == if jobs != old(jobs) then old(sent) + [s.id] else old(sent)
    {
      if !s.checks.targetKnown {
        return UnknownTarget;
      }
      if !s.checks.hostAllowed {
        return BlockedHost;
      }
      if !s.checks.hasCapacity {
        return QueueFull;
      }
      var params := s.body.params;
      if s.key.Some? && s.key.value != "" {
        var existing := FindByKey(jobs, s.owner, s.key.value);
        if existing.Some? {
          var row := existing.value;
          if FINGERPRINT in row.params && row.params[FINGERPRINT] != ""
            && row.params[FINGERPRINT] != fingerprint(s.body) {
            return Conflict;
          }
          return Accepted(row.id, row.job.state, true);
        }
        params := params[FINGERPRINT := fingerprint(s.body)];
      }
      if s.key.Some? && FindByKey(jobs, s.owner, s.key.value).Some? {
        return ServerError;
      }
      jobs := jobs + [Row(s.id, s.owner, s.key, s.body.fields, params, Repo.Created(s.body.maxPages).job)];
      sent := sent + [s.id];
      reply := Accepted(s.id, PENDING, false);
    }

    method CancelJob(p: Principal, id: string, now: int) returns (refusal: Option<Reply>)
      modifies this`jobs, this`revoked
      ensures (jobs, refusal) == CancelTx(old(jobs), p, id, now)
      ensures revoked == if refusal.None? then old(revoked) + [id] else old(revoked)
    {
      var i := FindById(jobs, id);
      if i.None? || !Owns(p, jobs[i.value]) {
        return Some(NotFound);
      }
      var row := jobs[i.value];
      if row.job.state in TERMINAL_STATES {
        return Some(Conflict);
      }
      revoked := revoked + [id];
      jobs := jobs[i.value := row.(job := Cancelled(row.job, now))];
      refusal := None;
    }

    method RetryJob(p: Principal, id: string, newId: string) returns (reply: Reply)
      modifies this`jobs, this`sent
      ensures (jobs, reply) == RetryTx(old(jobs), p, id, newId)
      ensures sent == if reply.Accepted? then old(sent) + [newId] else old(sent)
    {
      var i := FindById(jobs, id);
      if i.None? || !Owns(p, jobs[i.value]) {
        return NotFound;
      }
      var row := jobs[i.value];
      if row.job.state !in TERMINAL_STATES {
        return Conflict;
      }
      var params := row.params[RETRY_OF := row.id];
      jobs := jobs + [Row(newId, row.owner, None, row.fields, params, Repo.Created(row.job.maxPages).job)];
      sent := sent + [newId];
      reply := Accepted(newId, PENDING, false);
    }
  }

  // ----- request histories -----

  /** The table, the requests between their lookup and their insert, and every reply
      so far with the submission it answered. */
  datatype Service = Service(jobs: seq<Row>, waiting: map<nat, Submission>, replies: seq<(Submission, Reply)>)

  datatype Request =
    | Receive(n: nat, s: Submission)
    | Commit(n: nat)
    | Drop(n: nat)
    | Cancel(p: Principal, id: string, now: int)
    | Retry(p: Principal, id: string, newId: string)
    | Progress(i: nat, job: Repo.Job)

  ghost function Next(fingerprint: Fingerprint, v: Service, r: Request): Service {
    match r
    case Receive(n, s) =>
      if n in v.waiting then v
      else
        var reply := Lookup(v.jobs, fingerprint, s);
        if reply.Some? then v.(replies := v.replies + [(s, reply.value)]) else v.(waiting := v.waiting[n := s])
    case Commit(n) =>
      if n !in v.waiting || FindById(v.jobs, v.waiting[n].id).Some? then v
      else
        var s := v.waiting[n];
        var (jobs, reply) := Insert(v.jobs, fingerprint, s);
        Service(jobs, v.waiting - {n}, v.replies + [(s, reply)])
    case Drop(n) => v.(waiting := v.waiting - {n})
    case Cancel(p, id, now) => v.(jobs := CancelTx(v.jobs, p, id, now).0)
    case Retry(p, id, newId) => if FindById(v.jobs, newId).Some? then v else v.(jobs := RetryTx(v.jobs, p, id, newId).0)
    case Progress(i, job) => if i < |v.jobs| then v.(jobs := v.jobs[i := v.jobs[i].(job := job)]) else v
  }

  ghost function Served(fingerprint: Fingerprint, requests: seq<Request>): Service {
    if requests == [] then Service([], map[], [])
    else Next(fingerprint, Served(fingerprint, requests[..|requests| - 1]), requests[|requests| - 1])
  }

  // ----- the invariant -----

  /** Two rows never share an id, nor an owner and a key. */
  ghost predicate RowsApart(a: Row, b: Row) {
    a.id != b.id && !(a.owner == b.owner && a.key.Some? && a.key == b.key)
  }

  ghost predicate Unique(jobs: seq<Row>) {
    forall i, j :: 0 <= i < j < |jobs| ==> RowsApart(jobs[i], jobs[j])
  }

  /** A row with a key stores a fingerprint. */
  ghost predicate Stamped(jobs: seq<Row>) {
    forall row :: row in jobs && row.key.Some? && row.key != Some("") ==>
      FINGERPRINT in row.params && row.params[FINGERPRINT] != ""
  }

  /** The row that an accepted submission with a key was answered with. */
  ghost predicate Backs(fingerprint: Fingerprint, row: Row, s: Submission, id: string) {
    && row.id == id && s.key.Some? && Matches(row, s.owner, s.key.value)
    && FINGERPRINT in row.params && row.params[FINGERPRINT] == fingerprint(s.body)
  }

  ghost predicate Backed(fingerprint: Fingerprint, jobs: seq<Row>, e: (Submission, Reply)) {
    LooksUp(e.0) && e.1.Accepted? ==> exists row :: row in jobs && Backs(fingerprint, row, e.0, e.1.id)
  }

  ghost predicate CreatedOnce(jobs: seq<Row>, replies: seq<(Submission, Reply)>) {
    && (forall e :: e in replies && e.1.Accepted? ==> exists row :: row in jobs && row.id == e.1.id)
    && (forall i, j ::
          0 <= i < j < |replies| && replies[i].1.Accepted? && replies[j].1.Accepted? && !replies[j].1.replay
          ==> replies[i].1.id != replies[j].1.id)
  }

  ghost predicate Consistent(fingerprint: Fingerprint, v: Service) {
    && Unique(v.jobs) && Stamped(v.jobs)
    && (forall e :: e in v.replies ==> Backed(fingerprint, v.jobs, e))
    && CreatedOnce(v.jobs, v.replies)
  }

  // ----- what every request keeps -----

  /** Rows are added at the end; of an old row only the job's progress changes. */
  ghost predicate JobsGrow(jobs: seq<Row>, jobs': seq<Row>) {
    && |jobs| <= |jobs'|
    && forall i :: 0 <= i < |jobs| ==> jobs'[i] == jobs[i].(job := jobs'[i].job)
  }

  lemma BackedStays(fingerprint: Fingerprint, jobs: seq<Row>, jobs': seq<Row>, e: (Submission, Reply))
    requires JobsGrow(jobs, jobs') && Backed(fingerprint, jobs, e)
    ensures Backed(fingerprint, jobs', e)
  {
    if LooksUp(e.0) && e.1.Accepted? {
      var row :| row in jobs && Backs(fingerprint, row, e.0, e.1.id);
      var i :| 0 <= i < |jobs| && jobs[i] == row;
      assert Backs(fingerprint, jobs'[i], e.0, e.1.id);
    }
  }

  lemma IdStays(jobs: seq<Row>, jobs': seq<Row>, id: string)
    requires JobsGrow(jobs, jobs') && exists row :: row in jobs && row.id == id
    ensures exists row :: row in jobs' && row.id == id
  {
    var row :| row in jobs && row.id == id;
    var i :| 0 <= i < |jobs| && jobs[i] == row;
    assert jobs'[i].id == id;
  }

  /** The table may change as long as it stays in order. */
  lemma JobsMayGrow(fingerprint: Fingerprint, v: Service, jobs: seq<Row>)
    requires Consistent(fingerprint, v) && JobsGrow(v.jobs, jobs) && Unique(jobs) && Stamped(jobs)
    ensures Consistent(fingerprint, v.(jobs := jobs))
  {
    forall e | e in v.replies
      ensures Backed(fingerprint, jobs, e)
    {
      BackedStays(fingerprint, v.jobs, jobs, e);
    }
    forall e | e in v.replies && e.1.Accepted?
      ensures exists row :: row in jobs && row.id == e.1.id
    {
      IdStays(v.jobs, jobs, e.1.id);
    }
  }

  lemma RowAdded(jobs: seq<Row>, row: Row)
    requires Unique(jobs) && Stamped(jobs)
    requires forall r :: r in jobs ==> RowsApart(r, row)
    requires row.key.Some? && row.key != Some("") ==> FINGERPRINT in row.params && row.params[FINGERPRINT] != ""
    ensures JobsGrow(jobs, jobs + [row]) && Unique(jobs + [row]) && Stamped(jobs + [row])
  {
  }

  lemma JobSet(jobs: seq<Row>, i: nat, job: Repo.Job)
    requires i < |jobs| && Unique(jobs) && Stamped(jobs)
    ensures var jobs' := jobs[i := jobs[i].(job := job)]; JobsGrow(jobs, jobs') && Unique(jobs') && Stamped(jobs')
  {
    var jobs' := jobs[i := jobs[i].(job := job)];
    forall row | row in jobs' && row.key.Some? && row.key != Some("")
      ensures FINGERPRINT in row.params && row.params[FINGERPRINT] != ""
    {
      var k :| 0 <= k < |jobs'| && jobs'[k] == row;
      assert jobs[k] in jobs;
    }
  }

  lemma ReplyAdded(fingerprint: Fingerprint, v: Service, e: (Submission, Reply))
    requires Consistent(fingerprint, v) && Backed(fingerprint, v.jobs, e)
    requires e.1.Accepted? ==> exists row :: row in v.jobs && row.id == e.1.id
    requires e.1.Accepted? && !e.1.replay ==> forall r :: r in v.replies && r.1.Accepted? ==> r.1.id != e.1.id
    ensures Consistent(fingerprint, v.(replies := v.replies + [e]))
  {
  }

  lemma ReceiveKeeps(fingerprint: Fingerprint, v: Service, n: nat, s: Submission)
    requires Consistent(fingerprint, v)
    ensures Consistent(fingerprint, Next(fingerprint, v, Receive(n, s)))
  {
    var reply := Lookup(v.jobs, fingerprint, s);
    if n !in v.waiting && reply.Some? {
      if reply.value.Accepted? {
        var row := FindByKey(v.jobs, s.owner, s.key.value).value;
        assert Backs(fingerprint, row, s, row.id);
      }
      ReplyAdded(fingerprint, v, (s, reply.value));
    }
  }

  lemma CommitKeeps(fingerprint: Fingerprint, v: Service, n: nat)
    requires Consistent(fingerprint, v)
    ensures Consistent(fingerprint, Next(fingerprint, v, Commit(n)))
  {
    if n in v.waiting && FindById(v.jobs, v.waiting[n].id).None? {
      var s := v.waiting[n];
      var (jobs, reply) := Insert(v.jobs, fingerprint, s);
      if reply.Accepted? {
        var row := NewRow(fingerprint, s);
        RowAdded(v.jobs, row);
        JobsMayGrow(fingerprint, v, jobs);
        assert row in jobs && (LooksUp(s) ==> Backs(fingerprint, row, s, s.id));
        forall r | r in v.replies && r.1.Accepted?
          ensures r.1.id != s.id
        {
          var other :| other in v.jobs && other.id == r.1.id;
        }
        ReplyAdded(fingerprint, v.(jobs := jobs), (s, reply));
      } else {
        ReplyAdded(fingerprint, v, (s, reply));
      }
    }
  }

  lemma TableKeeps(fingerprint: Fingerprint, v: Service, r: Request)
    requires Consistent(fingerprint, v) && (r.Cancel? || r.Retry? || r.Progress?)
    ensures Consistent(fingerprint, Next(fingerprint, v, r))
  {
    var jobs := Next(fingerprint, v, r).jobs;
    if jobs != v.jobs {
      assert JobsGrow(v.jobs, jobs) && Unique(jobs) && Stamped(jobs) by {
        match r
        case Cancel(p, id, now) =>
          var i := FindById(v.jobs, id).value;
          JobSet(v.jobs, i, Cancelled(v.jobs[i].job, now));
        case Retry(p, id, newId) => RowAdded(v.jobs, jobs[|v.jobs|]);
        case Progress(i, job) => JobSet(v.jobs, i, job);
      }
      JobsMayGrow(fingerprint, v, jobs);
    }
  }

  lemma {:induction false} ServedConsistently(fingerprint: Fingerprint, requests: seq<Request>)
    ensures Consistent(fingerprint, Served(fingerprint, requests))
  {
    if requests != [] {
      var front, last := requests[..|requests| - 1], requests[|requests| - 1];
      ServedConsistently(fingerprint, front);
      var v := Served(fingerprint, front);
      match last
      case Receive(n, s) => ReceiveKeeps(fingerprint, v, n, s);
      case Commit(n) => CommitKeeps(fingerprint, v, n);
      case Drop(n) =>
      case _ => TableKeeps(fingerprint, v, last);
    }
  }

  // ----- idempotent submission -----

  /** Over any interleaving of any requests: at most one row exists per owner and key;
      all accepted replies to one key name the same job, were given for bodies with the
      same fingerprint, which the row stores; and only one of them created it. */
  lemma SubmissionIsIdempotent(fingerprint: Fingerprint, requests: seq<Request>, i: nat, j: nat)
    requires var replies := Served(fingerprint, requests).replies;
             && i < j < |replies| && replies[i].1.Accepted? && replies[j].1.Accepted?
             && LooksUp(replies[i].0) && replies[j].0.owner == replies[i].0.owner
               && replies[j].0.key == replies[i].0.key
    ensures var v := Served(fingerprint, requests);
            var a, b := v.replies[i], v.replies[j];
            && a.1.id == b.1.id && b.1.replay
            && fingerprint(a.0.body) == fingerprint(b.0.body)
            && (exists row :: row in v.jobs && Backs(fingerprint, row, a.0, a.1.id))
            && (forall x, y :: 0 <= x < y < |v.jobs| ==> RowsApart(v.jobs[x], v.jobs[y]))
  {
    ServedConsistently(fingerprint, requests);
    var v := Served(fingerprint, requests);
    var a, b := v.replies[i], v.replies[j];
    assert Backed(fingerprint, v.jobs, a) && Backed(fingerprint, v.jobs, b);
    var r :| r in v.jobs && Backs(fingerprint, r, a.0, a.1.id);
    var q :| q in v.jobs && Backs(fingerprint, q, b.0, b.1.id);
    var x :| 0 <= x < |v.jobs| && v.jobs[x] == r;
    var y :| 0 <= y < |v.jobs| && v.jobs[y] == q;
    assert x == y;
  }

  /** A request that passes the checks and names a job's key is answered with that job
      if its body has the stored fingerprint and refused otherwise, and the table stays
      as it was; unless the key is empty, when the index makes it fail. */
  lemma RepeatedSubmission(fingerprint: Fingerprint, requests: seq<Request>, s: Submission, row: Row)
    requires s.checks == Checks(true, true, true) && s.key.Some?
    requires row in Served(fingerprint, requests).jobs && Matches(row, s.owner, s.key.value)
    ensures var jobs := Served(fingerprint, requests).jobs;
            var (after, reply) := SubmitTx(jobs, fingerprint, s);
            && after == jobs
            && (reply == ServerError <==> s.key == Some(""))
            && (s.key != Some("") ==>
                  && FINGERPRINT in row.params
                  && reply == if row.params[FINGERPRINT] == fingerprint(s.body)
                    then Accepted(row.id, row.job.state, true) else Conflict)
  {
    ServedConsistently(fingerprint, requests);
    var jobs := Served(fingerprint, requests).jobs;
    var found := FindByKey(jobs, s.owner, s.key.value);
    assert found.Some?;
    var x :| 0 <= x < |jobs| && jobs[x] == row;
    var y :| 0 <= y < |jobs| && jobs[y] == found.value;
    assert x == y;
  }

  // ----- what each handler answers and changes -----

  /** The checks come before everything else, in this order; a full queue refuses even a
      request whose job exists already. */
  lemma ChecksComeFirst(jobs: seq<Row>, fingerprint: Fingerprint, s: Submission)
    ensures !s.checks.targetKnown ==> SubmitTx(jobs, fingerprint, s) == (jobs, UnknownTarget)
    ensures s.checks.targetKnown && !s.checks.hostAllowed ==> SubmitTx(jobs, fingerprint, s) == (jobs, BlockedHost)
    ensures s.checks.targetKnown && s.checks.hostAllowed && !s.checks.hasCapacity ==>
              SubmitTx(jobs, fingerprint, s) == (jobs, QueueFull)
  {
  }

  /** A job that nothing has happened to yet. */
  predicate Untouched(job: Repo.Job, maxPages: nat) {
    job == Repo.Job(PENDING, maxPages, 0, 0, None, 0, 0, 0, None, None, None, None, None)
  }

  /** A request that passes the checks with a free key, or none, adds one row, which holds
      what was asked for and, with a key that is not empty, the body's fingerprint. */
  lemma SubmissionAddsRow(jobs: seq<Row>, fingerprint: Fingerprint, s: Submission)
    requires s.checks == Checks(true, true, true)
    requires s.key.Some? ==> forall row :: row in jobs ==> !(row.owner == s.owner && row.key == s.key)
    ensures var (after, reply) := SubmitTx(jobs, fingerprint, s);
            && reply == Accepted(s.id, PENDING, false) && |after| == |jobs| + 1 && after[..|jobs|] == jobs
            && var row := after[|jobs|];
               && row.id == s.id && row.owner == s.owner && row.key == s.key && row.fields == s.body.fields
               && Untouched(row.job, s.body.maxPages)
               && (s.key.None? || s.key == Some("") ==> row.params == s.body.params)
               && (s.key.Some? && s.key != Some("") ==>
                     row.params == s.body.params["_fingerprint" := fingerprint(s.body)])
  {
  }

  /** Neither a cancel nor a retry by somebody who owns no such job changes anything, or
      tells whether there is one. */
  lemma StrangersChangeNothing(jobs: seq<Row>, p: Principal, id: string, newId: string, now: int)
    requires forall row :: row in jobs && row.id == id ==> !p.admin && row.owner != p.keyId
    ensures CancelTx(jobs, p, id, now) == (jobs, Some(NotFound))
    ensures RetryTx(jobs, p, id, newId) == (jobs, NotFound)
  {
  }

  lemma {:induction false} FindsItsRow(jobs: seq<Row>, i: nat)
    requires Unique(jobs) && i < |jobs|
    ensures FindById(jobs, jobs[i].id) == Some(i)
  {
    if i > 0 {
      assert RowsApart(jobs[0], jobs[i]);
      FindsItsRow(jobs[1..], i - 1);
    }
  }

  /** The owner, or an admin, cancels a job that has not ended; that changes its state,
      error and end, and no other row. */
  lemma OwnerCancels(jobs: seq<Row>, p: Principal, i: nat, now: int)
    requires Unique(jobs) && i < |jobs| && (p.admin || jobs[i].owner == p.keyId)
    ensures var (after, refusal) := CancelTx(jobs, p, jobs[i].id, now);
            if jobs[i].job.state in TERMINAL_STATES then after == jobs && refusal == Some(Conflict)
            else
              && refusal == None && |after| == |jobs|
              && (forall j :: 0 <= j < |jobs| && j != i ==> after[j] == jobs[j])
              && after[i]
                 == jobs[i].(job := jobs[i].job.(state := CANCELLED, error := Some("cancelled by caller"),
                   finishedAt := Some(now)))
  {
    FindsItsRow(jobs, i);
  }

  /** The owner, or an admin, retries a job that has ended: a new row without a key asks
      for the same and names the old one, which stays as it is. */
  lemma OwnerRetries(jobs: seq<Row>, p: Principal, i: nat, newId: string)
    requires Unique(jobs) && i < |jobs| && (p.admin || jobs[i].owner == p.keyId)
    ensures var (after, reply) := RetryTx(jobs, p, jobs[i].id, newId);
            if jobs[i].job.state !in TERMINAL_STATES then after == jobs && reply == Conflict
            else
              && reply == Accepted(newId, PENDING, false) && |after| == |jobs| + 1 && after[..|jobs|] == jobs
              && var row := after[|jobs|];
                 && row.id == newId && row.owner == jobs[i].owner && row.key == None && row.fields == jobs[i].fields
                 && row.params == jobs[i].params["_retry_of" := jobs[i].id]
                 && Untouched(row.job, jobs[i].job.maxPages)
  {
    FindsItsRow(jobs, i);
  }
}
