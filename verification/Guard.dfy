/** The guard pipeline of Fetcher.fetch_page (scrapequeue/workers/fetch.py), run by
    any number of workers against one domain: circuit check, then token, then
    fetch, then the outcome is recorded.  Redis sees the same clock as the workers;
    the breaker reads it in whole seconds. */
module Guard {
  import opened Wrappers
  import B = TokenBucket
  import C = Circuit

  /** A worker between its circuit check and the end of its fetch. */
  datatype Worker = Passed(verdict: C.CircuitState) | Fetching(verdict: C.CircuitState)

  datatype State = State(clock: real, entry: Option<B.Entry>, keys: C.Keys, workers: map<nat, Worker>)

  datatype Config = Config(rate: real, breaker: C.Settings)

  /** One atomic step.  A worker may give up waiting or die at any point; a failed
      Draw leaves it waiting for another try. */
  datatype Step =
    | Tick(seconds: real)
    | CheckCircuit(w: nat)
    | Draw(w: nat)
    | Leave(w: nat)
    | Done(w: nat, ok: bool)

  predicate Sane(cfg: Config) {
    cfg.rate > 0.0 && cfg.breaker.openSeconds >= 1
  }

  function Rule(cfg: Config): B.Rule {
    B.DefaultRule(cfg.rate)
  }

  function Init(clock: real): State {
    State(clock, None, C.NONE, map[])
  }

  predicate Open(s: State) {
    C.IsOpen(s.keys, s.clock.Floor)
  }

  /** The breaker event that a step causes, if any. */
  function BreakerEvent(s: State, step: Step): Option<C.Event> {
    match step
    case CheckCircuit(w) => if w in s.workers then None else Some(C.Event(s.clock.Floor, C.Check))
    case Done(w, ok) =>
      if w in s.workers && s.workers[w].Fetching? then
        Some(C.Event(s.clock.Floor, if ok then C.Success else C.Failure))
      else None
    case _ => None
  }

  predicate Draws(s: State, step: Step) {
    step.Draw? && step.w in s.workers && s.workers[step.w].Passed?
  }

  function CallAt(s: State): B.Call {
    B.Call(s.clock, s.clock, 1.0)
  }

  /** The step is the start of a fetch. */
  predicate Starts(cfg: Config, s: State, step: Step)
    requires Sane(cfg)
  {
    Draws(s, step) && B.Decide(Rule(cfg), B.Live(s.entry, s.clock), s.clock, 1.0).allowed
  }

  /** A step that is not enabled changes nothing. */
  function Apply(cfg: Config, s: State, step: Step): State
    requires Sane(cfg)
  {
    match step
    case Tick(seconds) => if seconds >= 0.0 then s.(clock := s.clock + seconds) else s
    case CheckCircuit(w) =>
      if w in s.workers then s
      else
        var (keys, verdict) := C.Asked(s.keys, s.clock.Floor);
        s.(keys := keys, workers := if verdict == C.OPEN then s.workers else s.workers[w := Passed(verdict)])
    case Draw(w) =>
      if !Draws(s, step) then s
      else
        s.(entry := Some(B.Store(Rule(cfg), s.entry, CallAt(s))),
           workers := if Starts(cfg, s, step) then s.workers[w := Fetching(s.workers[w].verdict)] else s.workers)
    case Leave(w) => s.(workers := s.workers - {w})
    case Done(w, ok) =>
      if w !in s.workers || !s.workers[w].Fetching? then s
      else
        s.(keys := if ok then C.NONE else C.Failed(s.keys, s.clock.Floor, cfg.breaker).0,
           workers := s.workers - {w})
  }

  function Run(cfg: Config, s: State, steps: seq<Step>): State
    requires Sane(cfg)
  {
    if steps == [] then s
    else Apply(cfg, Run(cfg, s, steps[..|steps| - 1]), steps[|steps| - 1])
  }

  lemma {:induction false} RunSplits(cfg: Config, s: State, steps: seq<Step>, i: nat)
    requires Sane(cfg) && i <= |steps|
    ensures Run(cfg, s, steps) == Run(cfg, Run(cfg, s, steps[..i]), steps[i..])
    decreases |steps|
  {
    if i == |steps| {
      assert steps[..i] == steps;
    } else {
      var front := steps[..|steps| - 1];
      RunSplits(cfg, s, front, i);
      assert front[..i] == steps[..i];
      assert steps[i..][..|steps[i..]| - 1] == front[i..];
    }
  }

  // ----- one call of fetch_page, in order -----

  datatype Refusal =
    | BlockedUrl
    | RobotsDisallow
    | CircuitOpen(ttl: int)
    | RateLimitTimeout
    | FetchFailed

  /** Fetcher.fetch_page over the shared Redis objects. */
  class Fetcher {
    const bucket: B.TokenBuckets
    const circuit: C.CircuitBreaker
    const rate: real

    constructor (bucket: B.TokenBuckets, circuit: C.CircuitBreaker, rate: real)
      ensures this.bucket == bucket && this.circuit == circuit && this.rate == rate
    {
      this.bucket := bucket;
      this.circuit := circuit;
      this.rate := rate;
    }

    ghost predicate Valid(domain: string)
      reads this, bucket, circuit, circuit.redis
    {
      && bucket.Valid() && circuit.Valid(domain) && rate > 0.0
      && circuit.settings.openSeconds >= 1
      && circuit.redis.now == bucket.clock.Floor
    }

    /** `hostAllowed`, `robotsAllow` and `fetchSucceeds` are what the URL guard,
        robots.txt and the site answer; `others` is what other clients do to the
        bucket while this one sleeps, `duration` how long the fetch takes.  A guard
        that refuses leaves every later one untouched: no token is spent on a
        forbidden URL or an open circuit, and only a fetch that was made is recorded. */
    method FetchPage(domain: string, hostAllowed: bool, robotsAllow: bool,
                     others: seq<B.Interference>, duration: real, fetchSucceeds: bool)
      returns (r: Result<real, Refusal>, fetched: bool, ghost found: Option<B.Entry>)
      requires Valid(domain) && duration >= 0.0
      requires forall o :: o in others ==> o.pause >= 0.0 && forall q :: q in o.requests ==> q >= 0.0
      modifies bucket, circuit.redis
      ensures Valid(domain)
      // Which guard ends the call.
      ensures r == Err(BlockedUrl) <==> !hostAllowed
      ensures r == Err(RobotsDisallow) <==> hostAllowed && !robotsAllow
      ensures (r.Err? && r.error.CircuitOpen?) <==>
                hostAllowed && robotsAllow && C.Asked(old(circuit.View(domain)), old(circuit.redis.now)).1 == C.OPEN
      ensures r.Err? && r.error.CircuitOpen? ==>
                r.error.ttl == old(circuit.View(domain)).open.value - old(circuit.redis.now)
      ensures fetched <==> r.Ok? || r.error == FetchFailed
      ensures fetched ==> (r.Ok? <==> fetchSucceeds)
      // What it leaves behind.
      ensures !hostAllowed || !robotsAllow ==>
                && bucket.hashes == old(bucket.hashes) && bucket.clock == old(bucket.clock)
                && circuit.redis.data == old(circuit.redis.data)
      ensures r.Err? && r.error.CircuitOpen? ==>
                bucket.hashes == old(bucket.hashes) && bucket.clock == old(bucket.clock)
      ensures bucket.hashes - {"domain:" + domain} == old(bucket.hashes) - {"domain:" + domain}
      // A fetch takes one whole token, at the fetcher's rate and no sooner than it is there.
      ensures fetched ==>
                var at := bucket.clock - duration;
                at >= old(bucket.clock) && B.OneTokenTaken(rate, found, at, bucket.Stored("domain:" + domain))
      // Alone, it waits for exactly what is missing of that token.
      ensures others == [] && hostAllowed && robotsAllow && !(r.Err? && r.error.CircuitOpen?) ==>
                var rule := B.Rule(rate, if rate < 1.0 then 1.0 else rate);
                var first := B.Decide(rule, old(bucket.Current("domain:" + domain)), old(bucket.clock), 1.0);
                && (fetched <==> first.allowed || first.retryAfter <= 120.0)
                && (fetched ==> bucket.clock >= old(bucket.clock) + first.retryAfter + duration)
                && (r.Ok? ==> r.value == first.retryAfter)
      ensures r.Ok? ==> 0.0 <= r.value <= 120.0
      ensures r.Err? && r.error == RateLimitTimeout ==>
                && bucket.clock >= old(bucket.clock) + 120.0
                && circuit.View(domain)
                   == C.Expire(C.Asked(old(circuit.View(domain)), old(circuit.redis.now)).0, circuit.redis.now)
      ensures r.Ok? ==> circuit.View(domain) == C.NONE
      ensures r.Err? && r.error == FetchFailed ==>
                circuit.View(domain)
                == C.Failed(C.Asked(old(circuit.View(domain)), old(circuit.redis.now)).0,
                            circuit.redis.now, circuit.settings).0
    {
      if !hostAllowed {
        return Err(BlockedUrl), false, None;
      }
      if !robotsAllow {
        return Err(RobotsDisallow), false, None;
      }
      var checked := circuit.AssertClosed(domain);
      if checked.Err? {
        return Err(CircuitOpen(checked.error)), false, None;
      }
      label passed:
      ghost var view := circuit.View(domain);
      B.DefaultCapacity(rate);
      var slot, _, waited, entry := bucket.WaitForSlot("domain:" + domain, rate, 120.0, 1.0, others);
      if slot.Err? {
        circuit.redis.now := bucket.clock.Floor;
        circuit.ViewLater@passed(domain);
        return Err(RateLimitTimeout), false, entry;
      }
      B.GrantTakesOneToken(rate, entry, bucket.clock);
      ghost var at := bucket.clock;
      bucket.clock := bucket.clock + duration;
      assert bucket.clock - duration == at;
      circuit.redis.now := bucket.clock.Floor;
      circuit.ViewLater@passed(domain);
      if fetchSucceeds {
        circuit.RecordSuccess(domain);
        return Ok(waited), true, entry;
      }
      C.ExpireTwice(view, circuit.redis.now, circuit.redis.now, circuit.settings);
      var _ := circuit.RecordFailure(domain);
      r, fetched, found := Err(FetchFailed), true, entry;
    }
  }

  // ----- the rate of fetches -----

  function StartCount(cfg: Config, s: State, steps: seq<Step>): nat
    requires Sane(cfg)
  {
    if steps == [] then 0
    else
      var front, last := steps[..|steps| - 1], steps[|steps| - 1];
      StartCount(cfg, s, front) + if Starts(cfg, Run(cfg, s, front), last) then 1 else 0
  }

  /** The bucket calls of a run, in order. */
  function Calls(cfg: Config, s: State, steps: seq<Step>): seq<B.Call>
    requires Sane(cfg)
  {
    if steps == [] then []
    else
      var front, last := steps[..|steps| - 1], steps[|steps| - 1];
      var mid := Run(cfg, s, front);
      Calls(cfg, s, front) + if Draws(mid, last) then [CallAt(mid)] else []
  }

  ghost predicate Valid(cfg: Config, s: State)
    requires Sane(cfg)
  {
    s.entry.Some? ==>
      && B.InBounds(Some(s.entry.value.bucket), Rule(cfg))
      && s.entry.value.deadline == s.entry.value.bucket.ts + B.Ttl(Rule(cfg))
  }

  lemma ApplyKeepsValid(cfg: Config, s: State, step: Step)
    requires Sane(cfg) && Valid(cfg, s)
    ensures Valid(cfg, Apply(cfg, s, step)) && s.clock <= Apply(cfg, s, step).clock
  {
    if Draws(s, step) {
      B.CallStaysInBounds(Rule(cfg), B.Live(s.entry, s.clock), s.clock, 1.0);
    }
  }

  /** Appending one call to a block. */
  lemma {:induction false} DecisionsAppend(rule: B.Rule, e: Option<B.Entry>, calls: seq<B.Call>, c: B.Call)
    requires rule.rate > 0.0
    ensures |B.ExpiringDecisions(rule, e, calls)| == |calls|
    ensures var d := B.Decide(rule, B.Live(EntryAfter(rule, e, calls), c.server), c.now, c.requested);
            && B.ExpiringDecisions(rule, e, calls + [c]) == B.ExpiringDecisions(rule, e, calls) + [d]
            && B.Granted(calls + [c], B.ExpiringDecisions(rule, e, calls) + [d])
               == B.Granted(calls, B.ExpiringDecisions(rule, e, calls)) + if d.allowed then c.requested else 0.0
    ensures EntryAfter(rule, e, calls + [c]) == Some(B.Store(rule, EntryAfter(rule, e, calls), c))
    decreases |calls|
  {
    if calls != [] {
      var e' := Some(B.Store(rule, e, calls[0]));
      DecisionsAppend(rule, e', calls[1..], c);
      assert (calls + [c])[1..] == calls[1..] + [c];
      var d := B.Decide(rule, B.Live(EntryAfter(rule, e, calls), c.server), c.now, c.requested);
      assert (B.ExpiringDecisions(rule, e, calls) + [d])[1..] == B.ExpiringDecisions(rule, e', calls[1..]) + [d];
      assert B.ExpiringDecisions(rule, e, calls)[1..] == B.ExpiringDecisions(rule, e', calls[1..]);
    } else {
      assert calls + [c] == [c];
    }
  }

  function EntryAfter(rule: B.Rule, e: Option<B.Entry>, calls: seq<B.Call>): Option<B.Entry>
    requires rule.rate > 0.0
    decreases |calls|
  {
    if calls == [] then e else EntryAfter(rule, Some(B.Store(rule, e, calls[0])), calls[1..])
  }

  /** Every fetch that starts is one token granted by the shared bucket. */
  lemma {:induction false} StartsAreGrants(cfg: Config, s: State, steps: seq<Step>)
    requires Sane(cfg)
    ensures var calls := Calls(cfg, s, steps);
            && |B.ExpiringDecisions(Rule(cfg), s.entry, calls)| == |calls|
            && StartCount(cfg, s, steps) as real == B.Granted(calls, B.ExpiringDecisions(Rule(cfg), s.entry, calls))
            && Run(cfg, s, steps).entry == EntryAfter(Rule(cfg), s.entry, calls)
    decreases |steps|
  {
    if steps != [] {
      var front, last := steps[..|steps| - 1], steps[|steps| - 1];
      var mid := Run(cfg, s, front);
      StartsAreGrants(cfg, s, front);
      if Draws(mid, last) {
        DecisionsAppend(Rule(cfg), s.entry, Calls(cfg, s, front), CallAt(mid));
      } else {
        assert Calls(cfg, s, steps) == Calls(cfg, s, front);
      }
    }
  }

  lemma {:induction false} RunKeepsValid(cfg: Config, s: State, steps: seq<Step>)
    requires Sane(cfg) && Valid(cfg, s)
    ensures Valid(cfg, Run(cfg, s, steps)) && s.clock <= Run(cfg, s, steps).clock
    decreases |steps|
  {
    if steps != [] {
      RunKeepsValid(cfg, s, steps[..|steps| - 1]);
      ApplyKeepsValid(cfg, Run(cfg, s, steps[..|steps| - 1]), steps[|steps| - 1]);
    }
  }

  lemma {:induction false} CallsAreOnOneClock(cfg: Config, s: State, steps: seq<Step>)
    requires Sane(cfg)
    ensures var calls, end := Calls(cfg, s, steps), Run(cfg, s, steps);
            && s.clock <= end.clock
            && OneClock(calls)
            && forall c :: c in calls ==> s.clock <= c.now <= end.clock
    decreases |steps|
  {
    if steps != [] {
      var front, last := steps[..|steps| - 1], steps[|steps| - 1];
      CallsAreOnOneClock(cfg, s, front);
      assert Run(cfg, s, front).clock <= Run(cfg, s, steps).clock;
    }
  }

  lemma StartsAreAllowed(cfg: Config, s: State, steps: seq<Step>)
    requires Sane(cfg) && Valid(cfg, s)
    ensures StartCount(cfg, s, steps) as real <= B.Allowance(Rule(cfg), Run(cfg, s, steps).clock - s.clock)
  {
    StartsAreGrants(cfg, s, steps);
    CallsAreOnOneClock(cfg, s, steps);
    CallsBound(cfg, s, Calls(cfg, s, steps), Run(cfg, s, steps).clock);
  }

  /** However many workers there are: in any stretch of any run, at most a bucketful
      of fetches start, plus rate x the time that passes; the bucket holds a second's
      worth of fetches and at least one. */
  lemma FetchRateIsBounded(cfg: Config, s: State, steps: seq<Step>, t: real) returns (most: real)
    requires Sane(cfg) && Valid(cfg, s) && t == Run(cfg, s, steps).clock - s.clock
    ensures most == (if cfg.rate < 1.0 then 1.0 else cfg.rate) + cfg.rate * t
    ensures StartCount(cfg, s, steps) as real <= most
  {
    most := MostStarts(cfg.rate, t);
    StartsAreAllowed(cfg, s, steps);
  }

  lemma MostStarts(rate: real, t: real) returns (most: real)
    ensures most == (if rate < 1.0 then 1.0 else rate) + rate * t
    ensures most == B.Allowance(B.DefaultRule(rate), t)
  {
    most := B.Allowance(B.DefaultRule(rate), t);
  }

  lemma CallsBound(cfg: Config, s: State, calls: seq<B.Call>, end: real)
    requires Sane(cfg) && Valid(cfg, s) && OneClock(calls) && s.clock <= end
    requires forall c :: c in calls ==> s.clock <= c.now <= end
    ensures |B.ExpiringDecisions(Rule(cfg), s.entry, calls)| == |calls|
    ensures B.Granted(calls, B.ExpiringDecisions(Rule(cfg), s.entry, calls)) <= B.Allowance(Rule(cfg), end - s.clock)
  {
    if calls == [] {
      AllowanceGrows(Rule(cfg), 0.0, end - s.clock);
    } else {
      BlockBound(cfg, s, calls);
      var first, last := calls[0], calls[|calls| - 1];
      assert first in calls && last in calls;
      AllowanceGrows(Rule(cfg), last.now - first.now, end - s.clock);
    }
  }

  /** One clock, read by the client and by the server alike, that never goes back. */
  ghost predicate OneClock(calls: seq<B.Call>) {
    && (forall c :: c in calls ==> c.now == c.server && c.requested >= 0.0)
    && (forall i, j :: 0 <= i < j < |calls| ==> calls[i].now <= calls[j].now)
  }

  lemma BlockBound(cfg: Config, s: State, calls: seq<B.Call>)
    requires Sane(cfg) && Valid(cfg, s) && OneClock(calls) && calls != []
    ensures |B.ExpiringDecisions(Rule(cfg), s.entry, calls)| == |calls|
    ensures B.Granted(calls, B.ExpiringDecisions(Rule(cfg), s.entry, calls))
            <= B.Allowance(Rule(cfg), calls[|calls| - 1].now - calls[0].now)
  {
    B.GraceIsTimely(Rule(cfg), calls);
    B.RateBound(Rule(cfg), s.entry, calls);
  }

  lemma AllowanceGrows(rule: B.Rule, short: real, long: real)
    requires rule.rate > 0.0 && short <= long
    ensures B.Allowance(rule, short) <= B.Allowance(rule, long)
    ensures B.Allowance(rule, 0.0) == rule.capacity
  {
    B.ProductSign(long - short, rule.rate);
  }

  // ----- fetches while the circuit is open -----

  /** The i-th step of a run is taken in this state. */
  function At(cfg: Config, s: State, steps: seq<Step>, i: nat): State
    requires Sane(cfg) && i <= |steps|
  {
    Run(cfg, s, steps[..i])
  }

  /** `w` passed its circuit check at step `c` and has been at work ever since. */
  ghost predicate CheckedAt(cfg: Config, s: State, steps: seq<Step>, w: nat, c: nat, i: nat)
    requires Sane(cfg) && i <= |steps|
  {
    && c < i && steps[c] == CheckCircuit(w) && w !in At(cfg, s, steps, c).workers
    && forall m :: c < m <= i ==>
         && w in At(cfg, s, steps, m).workers
         && At(cfg, s, steps, m).workers[w].verdict
            == C.Asked(At(cfg, s, steps, c).keys, At(cfg, s, steps, c).clock.Floor).1
  }

  lemma {:induction false} WorkersWereChecked(cfg: Config, clock: real, steps: seq<Step>, w: nat, i: nat)
      returns (c: nat)
    requires Sane(cfg) && i <= |steps| && w in At(cfg, Init(clock), steps, i).workers
    ensures CheckedAt(cfg, Init(clock), steps, w, c, i)
  {
    var s0 := Init(clock);
    assert i > 0;
    var prev := At(cfg, s0, steps, i - 1);
    assert steps[..i][..i - 1] == steps[..i - 1] && steps[..i][i - 1] == steps[i - 1];
    if w in prev.workers {
      c := WorkersWereChecked(cfg, clock, steps, w, i - 1);
    } else {
      c := i - 1;
    }
  }

  /** A fetch that starts while the circuit is open either holds a probe grant, or
      passed its check while the circuit was still closed. */
  lemma OpenCircuitFetches(cfg: Config, clock: real, steps: seq<Step>, i: nat) returns (c: nat)
    requires Sane(cfg) && i < |steps|
    requires Starts(cfg, At(cfg, Init(clock), steps, i), steps[i]) && Open(At(cfg, Init(clock), steps, i))
    ensures CheckedAt(cfg, Init(clock), steps, steps[i].w, c, i)
    ensures var asked := At(cfg, Init(clock), steps, c);
            || !Open(asked)
            || C.Asked(asked.keys, asked.clock.Floor).1 == C.HALF_OPEN
  {
    c := WorkersWereChecked(cfg, clock, steps, steps[i].w, i);
    assert steps[..c + 1][..c] == steps[..c] && steps[..c + 1][c] == steps[c];
    assert At(cfg, Init(clock), steps, c + 1) == Apply(cfg, At(cfg, Init(clock), steps, c), steps[c]);
  }

  /** The breaker's history of a run. */
  function History(cfg: Config, s: State, steps: seq<Step>): seq<C.Event>
    requires Sane(cfg)
  {
    if steps == [] then []
    else
      var front, last := steps[..|steps| - 1], steps[|steps| - 1];
      var e := BreakerEvent(Run(cfg, s, front), last);
      History(cfg, s, front) + if e.Some? then [e.value] else []
  }

  /** The starts that hold a probe grant. */
  function ProbeStarts(cfg: Config, s: State, steps: seq<Step>): nat
    requires Sane(cfg)
  {
    if steps == [] then 0
    else
      var front, last := steps[..|steps| - 1], steps[|steps| - 1];
      var mid := Run(cfg, s, front);
      ProbeStarts(cfg, s, front) + if StartsProbe(cfg, mid, last) then 1 else 0
  }

  /** Workers that hold a probe grant and have not started their fetch. */
  function Probing(s: State): set<nat> {
    set w | w in s.workers && s.workers[w] == Passed(C.HALF_OPEN)
  }

  lemma BreakerStep(cfg: Config, s: State, step: Step)
    requires Sane(cfg)
    ensures var e, s' := BreakerEvent(s, step), Apply(cfg, s, step);
            && s.clock <= s'.clock
            && (e.None? ==> s'.keys == s.keys)
            && (e.Some? ==> e.value.at == s.clock.Floor && s'.keys == C.Apply(s.keys, e.value, cfg.breaker).0)
  {
  }

  lemma HistoryAppend(h: seq<C.Event>, e: C.Event, settings: C.Settings)
    ensures C.Run(h + [e], settings) == C.Apply(C.Run(h, settings), e, settings).0
    ensures C.Grants(h + [e], settings)
            == C.Grants(h, settings) + if C.Apply(C.Run(h, settings), e, settings).1 == C.HALF_OPEN then 1 else 0
  {
    assert (h + [e])[..|h|] == h;
  }

  /** A run drives the breaker through exactly its history. */
  lemma {:induction false} RunDrivesBreaker(cfg: Config, clock: real, steps: seq<Step>)
    requires Sane(cfg)
    ensures var end, h := Run(cfg, Init(clock), steps), History(cfg, Init(clock), steps);
            end.keys == C.Run(h, cfg.breaker) && C.Before(h, end.clock.Floor)
    decreases |steps|
  {
    if steps != [] {
      var front, last := steps[..|steps| - 1], steps[|steps| - 1];
      var mid, h := Run(cfg, Init(clock), front), History(cfg, Init(clock), front);
      RunDrivesBreaker(cfg, clock, front);
      BreakerStep(cfg, mid, last);
      var e := BreakerEvent(mid, last);
      if e.Some? {
        HistoryAppend(h, e.value, cfg.breaker);
        assert History(cfg, Init(clock), steps) == h + [e.value];
      } else {
        assert History(cfg, Init(clock), steps) == h;
      }
    }
  }

  /** Every probe fetch is covered by a grant of its own. */
  lemma {:induction false} ProbesHoldGrants(cfg: Config, clock: real, steps: seq<Step>)
    requires Sane(cfg)
    ensures ProbeStarts(cfg, Init(clock), steps) + |Probing(Run(cfg, Init(clock), steps))|
            <= C.Grants(History(cfg, Init(clock), steps), cfg.breaker)
    decreases |steps|
  {
    if steps != [] {
      var front, last := steps[..|steps| - 1], steps[|steps| - 1];
      var mid, h := Run(cfg, Init(clock), front), History(cfg, Init(clock), front);
      ProbesHoldGrants(cfg, clock, front);
      RunDrivesBreaker(cfg, clock, front);
      ProbingStep(cfg, mid, last);
      var e := BreakerEvent(mid, last);
      if e.Some? {
        HistoryAppend(h, e.value, cfg.breaker);
        assert History(cfg, Init(clock), steps) == h + [e.value];
      } else {
        assert History(cfg, Init(clock), steps) == h;
      }
    } else {
      assert Probing(Init(clock)) == {};
    }
  }

  predicate StartsProbe(cfg: Config, s: State, step: Step)
    requires Sane(cfg)
  {
    Starts(cfg, s, step) && s.workers[step.w].verdict == C.HALF_OPEN
  }

  predicate GetsProbe(s: State, step: Step) {
    step.CheckCircuit? && step.w !in s.workers && C.Asked(s.keys, s.clock.Floor).1 == C.HALF_OPEN
  }

  lemma ProbingMoves(cfg: Config, s: State, step: Step)
    requires Sane(cfg)
    ensures Probing(Apply(cfg, s, step)) <= Probing(s) + if GetsProbe(s, step) then {step.w} else {}
    ensures StartsProbe(cfg, s, step) ==> Probing(Apply(cfg, s, step)) <= Probing(s) - {step.w} && step.w in Probing(s)
  {
  }

  lemma ProbingStep(cfg: Config, s: State, step: Step)
    requires Sane(cfg)
    ensures |Probing(Apply(cfg, s, step))| + (if StartsProbe(cfg, s, step) then 1 else 0)
            <= |Probing(s)| + if GetsProbe(s, step) then 1 else 0
  {
    ProbingMoves(cfg, s, step);
    if StartsProbe(cfg, s, step) {
      Subset(Probing(Apply(cfg, s, step)), Probing(s) - {step.w});
    } else if GetsProbe(s, step) {
      Subset(Probing(Apply(cfg, s, step)), Probing(s) + {step.w});
    } else {
      Subset(Probing(Apply(cfg, s, step)), Probing(s));
    }
  }

  lemma {:induction false} Subset(a: set<nat>, b: set<nat>)
    requires a <= b
    ensures |a| <= |b|
  {
    assert b == a + (b - a);
  }

  /** Over any run by any number of workers, the fetches that go through an open
      circuit as probes never exceed the record_failure calls that opened it. */
  lemma ProbeFetchesNeverExceedOpenings(cfg: Config, clock: real, steps: seq<Step>)
    requires Sane(cfg)
    ensures ProbeStarts(cfg, Init(clock), steps) <= C.Openings(History(cfg, Init(clock), steps), cfg.breaker)
  {
    RunDrivesBreaker(cfg, clock, steps);
    ProbesHoldGrants(cfg, clock, steps);
    C.ProbesNeverExceedOpenings(History(cfg, Init(clock), steps), Run(cfg, Init(clock), steps).clock.Floor,
      cfg.breaker);
  }
}
