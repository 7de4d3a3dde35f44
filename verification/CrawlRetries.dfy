/** The retry budget of a page task, in numbers: five retries after transient failures,
    and a failure on record after the sixth. */
module CrawlRetries {
  import opened Wrappers
  import opened States
  import opened Repo
  import opened Export
  import opened Crawl
  import opened CrawlInvariant
  import opened CrawlRuns
  import opened CrawlOutput
  import opened CrawlPaths

  // ----- what each outcome of a fetch leads to -----

  predicate GivesUp(outcome: FetchOutcome, retries: nat) {
    outcome.Permanent? || outcome.SoftTimeLimit? || (outcome.Transient? && retries >= 5)
  }

  /** Up to four retries back, a transient failure leaves one message more and nothing
      else. */
  lemma TransientIsRetried(cfg: Config, s: State, w: nat, k: nat, p: nat, r: nat, outcome: FetchOutcome)
    requires w in s.workers && s.workers[w] == Fetching(k, p, r) && k < |s.plans| && outcome.Transient? && r < 5
    ensures var s' := FetchStep(cfg, s, w, outcome);
            && s'.plans == s.plans[k := s.plans[k].(messages := s.plans[k].messages + {(p, r + 1)})]
            && s'.workers == s.workers - {w} && s'.record == s.record && s'.blobs == s.blobs
  {
  }

  /** A failure that is not retried is recorded with the number of deliveries and with
      its kind; only a soft time limit returns no result. */
  lemma FailureIsRecorded(cfg: Config, s: State, w: nat, k: nat, p: nat, r: nat, outcome: FetchOutcome)
    requires w in s.workers && s.workers[w] == Fetching(k, p, r) && GivesUp(outcome, r)
    ensures var s' := CommitFailureStep(FetchStep(cfg, s, w, outcome), w);
            && p in s'.record.failed && s'.record.failed[p].attempts == r + 1
            && s'.record.failed[p].error == Take(outcome.error, 4000)
            && (p !in s.record.failed ==>
                  s'.record.failed[p].errorType
                  == match outcome
                     case Permanent(_) => Take("PermanentFetchError", 64)
                     case SoftTimeLimit(_) => Take("SoftTimeLimitExceeded", 64)
                     case Transient(errorType, _) => Take(errorType, 64))
            && s'.record.job.pagesFailed == s.record.job.pagesFailed + 1
            && s'.plans == s.plans && s'.record.pages == s.record.pages
            && s'.workers == if outcome.SoftTimeLimit? then s.workers - {w} else s.workers[w := Returning(k, Failed(p))]
  {
  }

  // ----- a page that fails again and again -----

  /** The messages of a page up to its n-th retry. */
  function Retries(p: nat, n: nat): set<(nat, nat)> {
    set r | 0 <= r <= n :: (p, r)
  }

  /** `s'` is `s` with these messages added to chord k. */
  ghost predicate WithMessages(s: State, s': State, k: nat, more: set<(nat, nat)>)
    requires k < |s.plans|
  {
    s' == s.(plans := s.plans[k := s.plans[k].(messages := s.plans[k].messages + more)])
  }

  lemma MessagesAdd(s: State, mid: State, s': State, k: nat, more: set<(nat, nat)>, rest: set<(nat, nat)>)
    requires k < |s.plans| && k < |mid.plans| && WithMessages(s, mid, k, more) && WithMessages(mid, s', k, rest)
    ensures WithMessages(s, s', k, more + rest)
  {
    assert s.plans[k].messages + more + rest == s.plans[k].messages + (more + rest);
  }

  lemma RetryGets(cfg: Config, s: State, w: nat, k: nat, p: nat, r: nat, next: nat, outcome: FetchOutcome)
    returns (s': State)
    requires w !in s.workers && k < |s.plans| && (p, r) in s.plans[k].messages && s.record.job.state != CANCELLED
    requires outcome.Transient? && r < 5 && next == r + 1
    ensures Gets(cfg, s, s') && WithMessages(s, s', k, {(p, next)})
  {
    var mid := StartPageStep(s, w, k, p, r);
    s' := FetchStep(cfg, mid, w, outcome);
    TransientIsRetried(cfg, mid, w, k, p, r, outcome);
    GetsByStep(cfg, s, StartPage(w, k, p, r), mid);
    GetsByStep(cfg, mid, Fetch(w, outcome), s');
    GetsThen(cfg, s, mid, s');
    assert s'.workers == s.workers;
  }

  /** From the first message of a page, n transient failures in a row leave exactly its
      messages up to the n-th retry. */
  lemma {:induction false} RetriesGet(cfg: Config, s: State, w: nat, k: nat, p: nat, n: nat, outcome: FetchOutcome)
    returns (s': State)
    requires w !in s.workers && k < |s.plans| && (p, 0) in s.plans[k].messages && s.record.job.state != CANCELLED
    requires outcome.Transient? && n <= 5
    ensures Gets(cfg, s, s') && WithMessages(s, s', k, Retries(p, n))
    decreases n
  {
    if n == 0 {
      s' := s;
      NoMessageAdds(s, k, p);
      GetsNothing(cfg, s);
    } else {
      var mid := RetriesGet(cfg, s, w, k, p, n - 1, outcome);
      s' := RetryGets(cfg, mid, w, k, p, n - 1, n, outcome);
      GetsThen(cfg, s, mid, s');
      MessagesAdd(s, mid, s', k, Retries(p, n - 1), {(p, n)});
      RetriesGrow(p, n);
    }
  }

  lemma NoMessageAdds(s: State, k: nat, p: nat)
    requires k < |s.plans| && (p, 0) in s.plans[k].messages
    ensures WithMessages(s, s, k, Retries(p, 0))
  {
    assert s.plans[k].messages + Retries(p, 0) == s.plans[k].messages;
    assert s.plans[k := s.plans[k]] == s.plans;
  }

  lemma RetriesGrow(p: nat, n: nat)
    requires n > 0
    ensures Retries(p, n) == Retries(p, n - 1) + {(p, n)} && (p, n - 1) in Retries(p, n - 1)
  {
  }

  lemma GetsNothing(cfg: Config, s: State)
    ensures Gets(cfg, s, s)
  {
    var none: seq<Step> := [];
    assert Path(cfg, [s], none) && [s][|none|] == s;
  }

  /** A delivery that gives up is recorded and, unless it ran out of time, returned. */
  lemma FailureGets(cfg: Config, s: State, w: nat, k: nat, p: nat, r: nat, outcome: FetchOutcome) returns (s': State)
    requires w !in s.workers && k < |s.plans| && (p, r) in s.plans[k].messages && s.record.job.state != CANCELLED
    requires GivesUp(outcome, r) && !outcome.SoftTimeLimit?
    ensures Gets(cfg, s, s')
    ensures p in s'.record.failed && s'.record.failed[p].attempts == r + 1
    ensures |s'.plans| == |s.plans| && Failed(p) in s'.plans[k].returned
    ensures s'.plans[k].messages == s.plans[k].messages && s'.record.pages == s.record.pages
  {
    var s1 := StartPageStep(s, w, k, p, r);
    var s2 := FetchStep(cfg, s1, w, outcome);
    var s3 := CommitFailureStep(s2, w);
    FailureIsRecorded(cfg, s1, w, k, p, r, outcome);
    s' := ReturnStep(s3, w);
    GetsByStep(cfg, s, StartPage(w, k, p, r), s1);
    GetsByStep(cfg, s1, Fetch(w, outcome), s2);
    GetsThen(cfg, s, s1, s2);
    GetsByStep(cfg, s2, CommitFailure(w), s3);
    GetsThen(cfg, s, s2, s3);
    GetsByStep(cfg, s3, Return(w), s');
    GetsThen(cfg, s, s3, s');
  }

  /** In some run of every job, a page that keeps failing is tried six times: its
      messages are those of the five retries, six attempts are on record, and its chord
      gets a failure. */
  lemma SixAttemptsAreReached(cfg: Config, blobs: Blobs, shared: Shared, p: nat, outcome: FetchOutcome, now: int)
    returns (s: State)
    requires FreshJob(cfg, blobs) && 1 <= p <= cfg.maxPages && outcome.Transient?
    ensures Reachable(cfg, s) && |s.plans| == 1
    ensures forall r: nat :: (p, r) in s.plans[0].messages <==> r <= 5
    ensures p in s.record.failed && s.record.failed[p].attempts == 6
    ensures Failed(p) in s.plans[0].returned && s.record.pages.Keys == {}
  {
    var init := Init(cfg, blobs, shared);
    var first := FirstMessagesGet(cfg, blobs, shared, p, now);
    var tried := FiveRetriesGet(cfg, first, p, outcome);
    GetsThen(cfg, init, first, tried);
    s := FailureGets(cfg, tried, 0, 0, p, 5, outcome);
    GetsThen(cfg, init, tried, s);
    InitGets(cfg, blobs, shared, s);
  }

  /** One chord, of which page p has exactly its messages up to the n-th retry. */
  ghost predicate TriedTo(s: State, p: nat, n: nat) {
    && |s.plans| == 1 && (forall r: nat :: (p, r) in s.plans[0].messages <==> r <= n)
    && s.workers == map[] && s.record.job.state == RUNNING && s.record.pages.Keys == {}
  }

  lemma FiveRetriesGet(cfg: Config, s: State, p: nat, outcome: FetchOutcome) returns (s': State)
    requires TriedTo(s, p, 0) && outcome.Transient?
    ensures Gets(cfg, s, s') && TriedTo(s', p, 5)
  {
    s' := RetriesGet(cfg, s, 0, 0, p, 5, outcome);
  }

  lemma OnlyFirstMessage(messages: set<(nat, nat)>, p: nat)
    requires (p, 0) in messages && forall m :: m in messages ==> m.1 == 0
    ensures forall r: nat :: (p, r) in messages <==> r <= 0
  {
    forall r: nat
      ensures (p, r) in messages <==> r <= 0
    {
      assert r == 0 ==> (p, r) == (p, 0);
      assert (p, r) in messages ==> (p, r).1 == 0;
    }
  }

  lemma FirstMessagesGet(cfg: Config, blobs: Blobs, shared: Shared, p: nat, now: int) returns (s: State)
    requires 1 <= p <= cfg.maxPages
    ensures Gets(cfg, Init(cfg, blobs, shared), s) && TriedTo(s, p, 0)
  {
    s := FirstPlanGets(cfg, blobs, shared, (page: nat) => [], now);
    assert s.record.pages.Keys == {};
    OnlyFirstMessage(s.plans[0].messages, p);
  }

  // ----- over any run -----

  /** The step is a transient failure of page p in chord k. */
  ghost predicate FailsTransiently(s: State, step: Step, k: nat, p: nat) {
    && step.Fetch? && step.outcome.Transient? && step.w in s.workers
    && s.workers[step.w].Fetching? && s.workers[step.w].plan == k && s.workers[step.w].page == p
  }

  ghost function Transients(cfg: Config, s: State, steps: seq<Step>, k: nat, p: nat): nat {
    if steps == [] then 0
    else
      var front, last := steps[..|steps| - 1], steps[|steps| - 1];
      Transients(cfg, s, front, k, p) + if FailsTransiently(Run(cfg, s, front), last, k, p) then 1 else 0
  }

  /** No delivery of the page is beyond its n-th retry. */
  ghost predicate Within(s: State, k: nat, p: nat, n: nat) {
    && (k < |s.plans| ==> forall r: nat :: (p, r) in s.plans[k].messages ==> r <= n)
    && (forall w :: w in s.workers && s.workers[w].Fetching? && s.workers[w].plan == k && s.workers[w].page == p ==>
          s.workers[w].retries <= n)
  }

  lemma DispatchStaysWithin(s: State, j: nat, k: nat, p: nat, n: nat)
    requires Within(s, k, p, n)
    ensures Within(DispatchStep(s, j), k, p, n)
  {
  }

  lemma StartStaysWithin(s: State, w: nat, j: nat, page: nat, retries: nat, k: nat, p: nat, n: nat)
    requires Within(s, k, p, n)
    ensures Within(StartPageStep(s, w, j, page, retries), k, p, n)
  {
  }

  lemma FetchStaysWithin(cfg: Config, s: State, w: nat, outcome: FetchOutcome, k: nat, p: nat, n: nat)
    requires Within(s, k, p, n)
    ensures Within(FetchStep(cfg, s, w, outcome), k, p, n + if FailsTransiently(s, Fetch(w, outcome), k, p) then 1
            else 0)
  {
  }

  lemma NothingIsDelivered(cfg: Config, s: State, step: Step, s': State, k: nat, p: nat, n: nat)
    requires Leads(cfg, s, step, s') && Within(s, k, p, n) && !step.Dispatch? && !step.StartPage? && !step.Fetch?
    ensures Within(s', k, p, n)
  {
  }

  lemma StepStaysWithin(cfg: Config, s: State, step: Step, s': State, k: nat, p: nat, n: nat)
    requires Leads(cfg, s, step, s') && Within(s, k, p, n)
    ensures Within(s', k, p, n + if FailsTransiently(s, step, k, p) then 1 else 0)
  {
    match step
    case Dispatch(j) => DispatchStaysWithin(s, j, k, p, n);
    case StartPage(w, j, page, retries) => StartStaysWithin(s, w, j, page, retries, k, p, n);
    case Fetch(w, outcome) => FetchStaysWithin(cfg, s, w, outcome, k, p, n);
    case _ => NothingIsDelivered(cfg, s, step, s', k, p, n);
  }

  /** Over any run, a page is delivered for the r-th time again only after r transient
      failures of that page in that chord. */
  lemma {:induction false} RetriesNeedTransients(cfg: Config, blobs: Blobs, shared: Shared, steps: seq<Step>, k: nat,
                                                 p: nat)
    ensures var init := Init(cfg, blobs, shared);
            Within(Run(cfg, init, steps), k, p, Transients(cfg, init, steps, k, p))
    decreases |steps|
  {
    if steps != [] {
      var init, front, last := Init(cfg, blobs, shared), steps[..|steps| - 1], steps[|steps| - 1];
      RetriesNeedTransients(cfg, blobs, shared, front, k, p);
      ApplyLeads(cfg, Run(cfg, init, front), last);
      StepStaysWithin(cfg, Run(cfg, init, front), last, Run(cfg, init, steps), k, p,
        Transients(cfg, init, front, k, p));
    }
  }

  /** So a task that gives up on a transient failure has seen six of them. */
  lemma GivingUpNeedsSix(cfg: Config, blobs: Blobs, shared: Shared, steps: seq<Step>, step: Step, k: nat, p: nat)
    requires var s := Run(cfg, Init(cfg, blobs, shared), steps);
             FailsTransiently(s, step, k, p) && Apply(cfg, s, step).workers != s.workers - {step.w}
    requires k < |Run(cfg, Init(cfg, blobs, shared), steps).plans|
    ensures Transients(cfg, Init(cfg, blobs, shared), steps + [step], k, p) >= 6
  {
    var init := Init(cfg, blobs, shared);
    var s := Run(cfg, init, steps);
    RetriesNeedTransients(cfg, blobs, shared, steps, k, p);
    ApplyLeads(cfg, s, step);
    var t := s.workers[step.w];
    if t.retries < 5 {
      TransientIsRetried(cfg, s, step.w, k, p, t.retries, step.outcome);
    }
    assert (steps + [step])[..|steps|] == steps;
  }
}
