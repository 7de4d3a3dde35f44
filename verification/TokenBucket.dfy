/** The shared token bucket (scrapequeue/queue/ratelimit.py).  Tokens and times
    are exact reals; the Lua script is one atomic step. */
module TokenBucket {
  import opened Wrappers

  /** The Redis hash of one bucket: fields 'tokens' and 'ts'. */
  datatype Bucket = Bucket(tokens: real, ts: real)

  /** A stored hash and the server time at which EXPIRE removes it. */
  datatype Entry = Entry(bucket: Bucket, deadline: real)

  datatype Rule = Rule(rate: real, capacity: real)

  /** One run of the script: the client's clock, the server's clock, the tokens asked for. */
  datatype Call = Call(now: real, server: real, requested: real)

  datatype Decision = Decision(allowed: bool, retryAfter: real)

  datatype Timeout = Timeout

  function Max(x: real, y: real): real { if x < y then y else x }

  function Min(x: real, y: real): real { if x < y then x else y }

  function Ceil(x: real): int { -((-x).Floor) }

  ghost predicate Sane(rule: Rule) {
    rule.rate > 0.0 && rule.capacity >= 0.0
  }

  ghost predicate InBounds(b: Option<Bucket>, rule: Rule) {
    b.Some? ==> 0.0 <= b.value.tokens <= rule.capacity
  }

  /** The tokens a call finds: a missing bucket is full, an existing one has been
      refilled since its last use and never above capacity. */
  function Available(rule: Rule, b: Option<Bucket>, now: real): real {
    match b
    case None => rule.capacity
    case Some(s) => Min(rule.capacity, s.tokens + Refill(rule, s.ts, now))
  }

  /** The tokens that accrue between `last` and `now`; none if the clock went back. */
  function Refill(rule: Rule, last: real, now: real): real {
    Max(0.0, now - last) * rule.rate
  }

  function Decide(rule: Rule, b: Option<Bucket>, now: real, requested: real): Decision
    requires rule.rate > 0.0
  {
    var tokens := Available(rule, b, now);
    if tokens >= requested then Decision(true, 0.0)
    else Decision(false, (requested - tokens) / rule.rate)
  }

  function Spend(rule: Rule, b: Option<Bucket>, now: real, requested: real): Bucket {
    var tokens := Available(rule, b, now);
    Bucket(if tokens >= requested then tokens - requested else tokens, now)
  }

  function Ttl(rule: Rule): real
    requires rule.rate > 0.0
  {
    (Ceil(rule.capacity / rule.rate) + 60) as real
  }

  function Live(e: Option<Entry>, server: real): Option<Bucket> {
    if e.Some? && server < e.value.deadline then Some(e.value.bucket) else None
  }

  /** One step of a bucket whose key expires. */
  function Store(rule: Rule, e: Option<Entry>, c: Call): Entry
    requires rule.rate > 0.0
  {
    Entry(Spend(rule, Live(e, c.server), c.now, c.requested), c.server + Ttl(rule))
  }

  /** TokenBucket.consume's default capacity. */
  function CapacityFor(rate: real, capacity: Option<real>): real {
    match capacity
    case Some(c) => c
    case None => Max(rate, 1.0)
  }

  // ----- the class over Redis -----

  /** What other clients do between two calls of one waiting client: time goes by
      (sleep may overshoot), then their calls reach the bucket. */
  datatype Interference = Interference(pause: real, requests: seq<real>)

  /** TokenBucket and the part of Redis that it uses, on one clock. */
  class TokenBuckets {
    var hashes: map<string, Entry>
    var clock: real

    constructor (clock: real)
      ensures hashes == map[] && this.clock == clock
    {
      hashes := map[];
      this.clock := clock;
    }

    function Stored(name: string): Option<Entry>
      reads this
    {
      if name in hashes then Some(hashes[name]) else None
    }

    function Current(name: string): Option<Bucket>
      reads this
    {
      Live(Stored(name), clock)
    }

    /** The script, statement by statement; `now` is the caller's clock. */
    method Consume(name: string, rate: real, capacity: Option<real>, requested: real, now: real)
      returns (decision: Decision)
      requires rate > 0.0
      modifies this`hashes
      ensures var rule := Rule(rate, CapacityFor(rate, capacity));
              && decision == Decide(rule, old(Current(name)), now, requested)
              && Stored(name) == Some(Store(rule, old(Stored(name)), Call(now, clock, requested)))
      ensures hashes - {name} == old(hashes) - {name}
    {
      var cap := if capacity.Some? then capacity.value else Max(rate, 1.0);
      var tokens, ts := cap, now;
      if name in hashes && clock < hashes[name].deadline {
        tokens, ts := hashes[name].bucket.tokens, hashes[name].bucket.ts;
      }
      var elapsed := Max(0.0, now - ts);
      assert elapsed == 0.0 ==> elapsed * rate == 0.0;
      tokens := Min(cap, tokens + elapsed * rate);
      var allowed, wait := false, 0.0;
      if tokens >= requested {
        tokens := tokens - requested;
        allowed := true;
      } else {
        wait := (requested - tokens) / rate;
      }
      hashes := hashes[name := Entry(Bucket(tokens, now), clock + (Ceil(cap / rate) + 60) as real)];
      decision := Decision(allowed, wait);
    }

    ghost predicate Valid()
      reads this
    {
      forall name :: name in hashes ==> hashes[name].bucket.tokens >= 0.0
    }

    /** consume with the default capacity, on the common clock. */
    method Draw(name: string, rate: real, requested: real) returns (decision: Decision)
      requires Valid() && rate > 0.0 && requested >= 0.0
      modifies this`hashes
      ensures Valid()
      ensures decision == Decide(DefaultRule(rate), old(Current(name)), clock, requested)
      ensures Stored(name) == Some(Store(DefaultRule(rate), old(Stored(name)), Call(clock, clock, requested)))
      ensures hashes - {name} == old(hashes) - {name}
    {
      CallStaysInBounds(DefaultRule(rate), Current(name), clock, requested);
      decision := Consume(name, rate, None, requested, clock);
      OthersUntouched(old(hashes), hashes, name);
    }

    /** The other clients' turn on the same bucket. */
    method Interfere(name: string, rate: real, other: Interference)
      requires Valid() && rate > 0.0 && other.pause >= 0.0
      requires forall r :: r in other.requests ==> r >= 0.0
      modifies this
      ensures Valid()
      ensures clock == old(clock) + other.pause
      ensures hashes - {name} == old(hashes) - {name}
    {
      clock := clock + other.pause;
      for i := 0 to |other.requests|
        invariant Valid()
        invariant clock == old(clock) + other.pause
        invariant hashes - {name} == old(hashes) - {name}
      {
        assert other.requests[i] in other.requests;
        var _ := Draw(name, rate, other.requests[i]);
      }
    }

    /** Blocks until `requested` tokens are granted.  `others` is what the other
        clients do during each sleep in turn; after that nobody interferes.  The
        last two results observe the loop: the time slept and the entry that the
        last call found. */
    method WaitForSlot(name: string, rate: real, timeout: real, requested: real, others: seq<Interference>)
      returns (result: Result<real, Timeout>, sleeps: nat, waited: real, ghost found: Option<Entry>)
      requires Valid() && rate > 0.0 && requested >= 0.0
      requires forall o :: o in others ==> o.pause >= 0.0 && forall r :: r in o.requests ==> r >= 0.0
      modifies this
      ensures Valid()
      ensures hashes - {name} == old(hashes) - {name}
      // Under any interference.
      ensures 0.0 <= waited <= Max(0.0, timeout) && clock >= old(clock) + waited
      ensures result == if result.Ok? then Ok(waited) else Err(Timeout)
      ensures result.Err? ==> waited == Max(0.0, timeout)
      ensures Decide(DefaultRule(rate), Live(found, clock), clock, requested).allowed <==> result.Ok?
      ensures Stored(name) == Some(Store(DefaultRule(rate), found, Call(clock, clock, requested)))
      // Uncontended, for one token or anything else that fits the bucket: at most one
      // sleep, and the least.
      ensures others == [] && (requested <= 1.0 || requested <= rate) ==>
                var first := Decide(DefaultRule(rate), old(Current(name)), old(clock), requested);
                && sleeps <= 1
                && (result.Ok? <==> first.allowed || first.retryAfter <= timeout)
                && (result.Ok? ==> waited == first.retryAfter)
                && waited <= requested / rate
                && (requested / rate <= timeout || old(Stored(name)).None? ==> result.Ok?)
                && (old(Stored(name)).None? ==> sleeps == 0 && waited == 0.0)
    {
      ghost var rule := DefaultRule(rate);
      ghost var first := Decide(rule, Current(name), clock, requested);
      FirstWait(rate, Current(name), clock, requested);
      waited, sleeps := 0.0, 0;
      var i := 0;
      ghost var certain := false;
      while true
        invariant Valid() && hashes - {name} == old(hashes) - {name}
        invariant 0 <= i <= |others|
        invariant 0.0 <= waited <= Max(0.0, timeout) && clock >= old(clock) + waited
        invariant sleeps == 0 ==> waited == 0.0 && clock == old(clock) && Stored(name) == old(Stored(name))
        invariant certain ==> waited >= timeout || Decide(rule, Current(name), clock, requested).allowed
        invariant others == [] && requested <= rule.capacity ==> sleeps == 0 || (sleeps == 1 && certain)
        invariant others == [] && requested <= rule.capacity && sleeps == 1 ==>
                    && !first.allowed && waited == Min(first.retryAfter, timeout)
                    && (Decide(rule, Current(name), clock, requested).allowed <==> first.retryAfter <= timeout)
        decreases |others| - i, Rounds(rule, requested, timeout - waited, certain)
      {
        found := Stored(name);
        var decision := Draw(name, rate, requested);
        if decision.allowed {
          return Ok(waited), sleeps, waited, found;
        }
        RetryAfterIsLeast(rule, Live(found, clock), clock, requested, 0.0);
        var delay := Min(decision.retryAfter, timeout - waited);
        if delay <= 0.0 {
          return Err(Timeout), sleeps, waited, found;
        }
        SleepMakesProgress(rule, found, clock, requested, delay, timeout - waited);
        clock := clock + delay;
        waited, sleeps := waited + delay, sleeps + 1;
        if i < |others| {
          Interfere(name, rate, others[i]);
          i, certain := i + 1, false;
        } else {
          certain := requested <= rule.capacity;
        }
      }
    }
  }

  lemma OthersUntouched(h0: map<string, Entry>, h1: map<string, Entry>, name: string)
    requires h1 - {name} == h0 - {name}
    ensures forall n :: n in h1 && n != name ==> n in h0 && h1[n] == h0[n]
  {
    forall n | n in h1 && n != name
      ensures n in h0 && h1[n] == h0[n]
    {
      assert n in h1 - {name};
    }
  }

  function DefaultRule(rate: real): Rule {
    Rule(rate, CapacityFor(rate, None))
  }

  /** By default a bucket holds a second's worth of tokens, and never less than one. */
  lemma DefaultCapacity(rate: real)
    ensures DefaultRule(rate) == Rule(rate, if rate < 1.0 then 1.0 else rate)
  {
  }

  /** The bucket holds exactly one whole token less than was there. */
  ghost predicate OneTokenTaken(rate: real, found: Option<Entry>, at: real, left: Option<Entry>)
    requires rate > 0.0
  {
    var rule := Rule(rate, if rate < 1.0 then 1.0 else rate);
    var tokens := Available(rule, Live(found, at), at);
    tokens >= 1.0 && left == Some(Entry(Bucket(tokens - 1.0, at), at + Ttl(rule)))
  }

  lemma GrantTakesOneToken(rate: real, found: Option<Entry>, at: real)
    requires rate > 0.0 && Decide(DefaultRule(rate), Live(found, at), at, 1.0).allowed
    ensures OneTokenTaken(rate, found, at, Some(Store(DefaultRule(rate), found, Call(at, at, 1.0))))
  {
  }

  /** A request that fits waits at most for its own tokens, and not at all at a bucket
      that is new. */
  lemma FirstWait(rate: real, b: Option<Bucket>, now: real, requested: real)
    requires rate > 0.0 && requested >= 0.0 && (b.Some? ==> b.value.tokens >= 0.0)
    ensures 0.0 <= Decide(DefaultRule(rate), b, now, requested).retryAfter <= requested / rate
    ensures b.None? && (requested <= 1.0 || requested <= rate) ==> Decide(DefaultRule(rate), b, now, requested).allowed
  {
    CallStaysInBounds(DefaultRule(rate), b, now, requested);
    MissingShare(requested, Available(DefaultRule(rate), b, now), rate);
  }

  lemma MissingShare(requested: real, tokens: real, rate: real)
    requires rate > 0.0 && tokens >= 0.0 && requested >= 0.0
    ensures (requested - tokens) / rate <= requested / rate && 0.0 <= requested / rate
    ensures tokens <= requested ==> 0.0 <= (requested - tokens) / rate
  {
    var part, all := (requested - tokens) / rate, requested / rate;
    assert part * rate == requested - tokens && all * rate == requested;
    ProductSign(part, rate);
    ProductSign(all, rate);
    ProductSign(all - part, rate);
  }

  // ----- a burst of single tokens -----

  /** `n` calls at one moment, each for one token. */
  function Burst(now: real, n: nat): seq<Call> {
    if n == 0 then [] else [Call(now, now, 1.0)] + Burst(now, n - 1)
  }

  lemma BurstStep(rule: Rule, e: Option<Entry>, now: real, tokens: real)
    requires Sane(rule) && (e.Some? ==>
            InBounds(Some(e.value.bucket), rule) && e.value.bucket.ts == now < e.value.deadline)
    requires tokens == if e.Some? then e.value.bucket.tokens else rule.capacity
    ensures var d, e' := Decide(rule, Live(e, now), now, 1.0), Store(rule, e, Call(now, now, 1.0));
            && (d.allowed <==> tokens >= 1.0)
            && e'.bucket == Bucket(if tokens >= 1.0 then tokens - 1.0 else tokens, now)
            && now < e'.deadline && InBounds(Some(e'.bucket), rule)
  {
    TtlIsPositive(rule);
    assert Refill(rule, now, now) == 0.0;
  }

  /** What one more call adds to the grants of a burst. */
  lemma BurstGrows(rule: Rule, e: Option<Entry>, now: real, n: nat)
    requires rule.rate > 0.0 && n > 0
    ensures var d, e' := Decide(rule, Live(e, now), now, 1.0), Store(rule, e, Call(now, now, 1.0));
            var rest, ds := ExpiringDecisions(rule, Some(e'), Burst(now, n - 1)),
              ExpiringDecisions(rule, e, Burst(now, n));
            && |ds| == 1 + |rest| && |Burst(now, n)| == 1 + |Burst(now, n - 1)|
            && (|rest| == |Burst(now, n - 1)| ==>
                  Granted(Burst(now, n), ds) == (if d.allowed then 1.0 else 0.0) + Granted(Burst(now, n - 1), rest))
  {
    var ds := ExpiringDecisions(rule, e, Burst(now, n));
    assert Burst(now, n)[1..] == Burst(now, n - 1);
    assert ds[1..] == ExpiringDecisions(rule, Some(Store(rule, e, Call(now, now, 1.0))), Burst(now, n - 1));
  }

  function AtMost(n: nat, tokens: real): real {
    if n <= tokens.Floor then n as real else tokens.Floor as real
  }

  lemma BurstNext(rule: Rule, e: Option<Entry>, now: real, n: nat, tokens: real) returns (e': Entry)
    requires Sane(rule) && n > 0
    requires e.Some? ==> InBounds(Some(e.value.bucket), rule) && e.value.bucket.ts == now < e.value.deadline
    requires tokens == if e.Some? then e.value.bucket.tokens else rule.capacity
    ensures InBounds(Some(e'.bucket), rule) && e'.bucket.ts == now < e'.deadline
    ensures e'.bucket.tokens == if tokens >= 1.0 then tokens - 1.0 else tokens
    ensures var rest, ds := ExpiringDecisions(rule, Some(e'), Burst(now, n - 1)),
            ExpiringDecisions(rule, e, Burst(now, n));
            && |ds| == 1 + |rest| && |Burst(now, n)| == 1 + |Burst(now, n - 1)|
            && (|rest| == |Burst(now, n - 1)| ==>
                  Granted(Burst(now, n), ds) == (if tokens >= 1.0 then 1.0 else 0.0) + Granted(Burst(now, n - 1), rest))
  {
    e' := Store(rule, e, Call(now, now, 1.0));
    BurstStep(rule, e, now, tokens);
    BurstGrows(rule, e, now, n);
  }

  lemma {:induction false} BurstGrants(rule: Rule, e: Option<Entry>, now: real, n: nat, tokens: real)
    requires Sane(rule)
    requires e.Some? ==> InBounds(Some(e.value.bucket), rule) && e.value.bucket.ts == now < e.value.deadline
    requires tokens == if e.Some? then e.value.bucket.tokens else rule.capacity
    ensures |ExpiringDecisions(rule, e, Burst(now, n))| == n == |Burst(now, n)|
    ensures Granted(Burst(now, n), ExpiringDecisions(rule, e, Burst(now, n))) == AtMost(n, tokens)
    decreases n
  {
    if n > 0 {
      var e' := BurstNext(rule, e, now, n, tokens);
      BurstGrants(rule, Some(e'), now, n - 1, e'.bucket.tokens);
      AtMostOneMore(n, tokens, Granted(Burst(now, n), ExpiringDecisions(rule, e, Burst(now, n))));
    }
  }

  lemma AtMostOneMore(n: nat, tokens: real, granted: real)
    requires n > 0 && tokens >= 0.0
    requires granted == if tokens >= 1.0 then 1.0 + AtMost(n - 1, tokens - 1.0) else AtMost(n - 1, tokens)
    ensures granted == AtMost(n, tokens)
  {
  }

  lemma TtlIsPositive(rule: Rule)
    requires Sane(rule)
    ensures Ttl(rule) >= 60.0
  {
    ProductSign(rule.capacity / rule.rate, rule.rate);
  }

  /** A burst of n single tokens on a new bucket: the whole tokens of a second's worth,
      and at least one, are granted, and no more. */
  lemma BurstOnNewBucket(rate: real, now: real, n: nat)
    requires rate > 0.0
    ensures var most := (if rate < 1.0 then 1.0 else rate).Floor;
            var calls := Burst(now, n);
            var ds := ExpiringDecisions(DefaultRule(rate), None, calls);
            |ds| == |calls| == n && Granted(calls, ds) == if n <= most then n as real else most as real
  {
    BurstGrants(DefaultRule(rate), None, now, n, DefaultRule(rate).capacity);
  }

  /** How many more passes an undisturbed waiter can take: a request that fits needs
      one sleep, one that does not sleeps until `left` has run out. */
  ghost function Rounds(rule: Rule, requested: real, left: real, certain: bool): nat
    requires rule.rate > 0.0
  {
    if requested <= rule.capacity then if certain then 0 else 1
    else if left <= 0.0 then 0
    else
      ProductSign((requested - rule.capacity) / rule.rate, rule.rate);
      var pace := (requested - rule.capacity) / rule.rate;
      ProductSign(left / pace, pace);
      Ceil(left / pace)
  }

  /** After an undisturbed sleep of the computed delay, either the deadline is
      reached, or the call that follows succeeds, or a request that never fits has
      used up at least one of its rounds. */
  lemma SleepMakesProgress(rule: Rule, found: Option<Entry>, now: real, requested: real, delay: real, left: real)
    requires Sane(rule) && requested >= 0.0 && (found.Some? ==> found.value.bucket.tokens >= 0.0)
    requires !Decide(rule, Live(found, now), now, requested).allowed
    requires 0.0 < delay == Min(Decide(rule, Live(found, now), now, requested).retryAfter, left)
    ensures var next := Live(Some(Store(rule, found, Call(now, now, requested))), now + delay);
            && (requested <= rule.capacity ==>
                  (Decide(rule, next, now + delay, requested).allowed
                   <==> delay == Decide(rule, Live(found, now), now, requested).retryAfter))
            && (requested > rule.capacity ==>
                  Rounds(rule, requested, left - delay, false) < Rounds(rule, requested, left, false))
  {
    var b := Live(found, now);
    var tokens, wait := Available(rule, b, now), Decide(rule, b, now, requested).retryAfter;
    CallStaysInBounds(rule, b, now, requested);
    RetryAfterIsLeast(rule, b, now, requested, delay);
    if requested <= rule.capacity {
      WaitFitsTtl(rule, tokens, requested);
    } else {
      RoundsShrink(rule, requested, tokens, delay, left);
    }
  }

  lemma WaitFitsTtl(rule: Rule, tokens: real, requested: real)
    requires Sane(rule) && 0.0 <= tokens && requested <= rule.capacity
    ensures (requested - tokens) / rule.rate < Ttl(rule)
  {
    var full, wait := rule.capacity / rule.rate, (requested - tokens) / rule.rate;
    assert full * rule.rate == rule.capacity && wait * rule.rate == requested - tokens;
    ProductSign(full - wait, rule.rate);
    assert (full - wait) * rule.rate == rule.capacity - (requested - tokens);
  }

  lemma RoundsShrink(rule: Rule, requested: real, tokens: real, delay: real, left: real)
    requires Sane(rule) && tokens <= rule.capacity < requested
    requires 0.0 < delay == Min((requested - tokens) / rule.rate, left)
    ensures Rounds(rule, requested, left - delay, false) < Rounds(rule, requested, left, false)
  {
    var pace, wait := (requested - rule.capacity) / rule.rate, (requested - tokens) / rule.rate;
    assert pace * rule.rate == requested - rule.capacity && wait * rule.rate == requested - tokens;
    ProductSign(pace, rule.rate);
    ProductSign(wait - pace, rule.rate);
    assert (wait - pace) * rule.rate == rule.capacity - tokens;
    var rounds := left / pace;
    assert rounds * pace == left;
    ProductSign(rounds, pace);
    if delay < left {
      var fewer := (left - delay) / pace;
      assert fewer * pace == left - delay;
      ProductSign(rounds - 1.0 - fewer, pace);
      assert (rounds - 1.0 - fewer) * pace == delay - pace;
    }
  }

  // ----- one call -----

  lemma ProductSign(x: real, y: real)
    requires y > 0.0
    ensures x >= 0.0 <==> x * y >= 0.0
    ensures x > 0.0 <==> x * y > 0.0
  {
  }

  /** Stored tokens stay within 0..capacity, and start from any non-negative amount. */
  lemma CallStaysInBounds(rule: Rule, b: Option<Bucket>, now: real, requested: real)
    requires Sane(rule) && requested >= 0.0
    requires b.Some? ==> b.value.tokens >= 0.0
    ensures InBounds(Some(Spend(rule, b, now, requested)), rule)
    ensures 0.0 <= Available(rule, b, now) <= rule.capacity
  {
    if b.Some? {
      ProductSign(Max(0.0, now - b.value.ts), rule.rate);
    }
  }

  /** retry_after is exact: after a refusal, an undisturbed call is allowed precisely
      from `retryAfter` seconds on, and never if it asks for more than the capacity. */
  lemma RetryAfterIsLeast(rule: Rule, b: Option<Bucket>, now: real, requested: real, delay: real)
    requires Sane(rule) && requested >= 0.0 && delay >= 0.0
    requires b.Some? ==> b.value.tokens >= 0.0
    requires !Decide(rule, b, now, requested).allowed
    ensures Decide(rule, b, now, requested).retryAfter > 0.0
    ensures Decide(rule, Some(Spend(rule, b, now, requested)), now + delay, requested).allowed
            <==> requested <= rule.capacity && delay >= Decide(rule, b, now, requested).retryAfter
  {
    var tokens := Available(rule, b, now);
    CallStaysInBounds(rule, b, now, requested);
    var wait := (requested - tokens) / rule.rate;
    assert wait * rule.rate == requested - tokens;
    ProductSign(wait, rule.rate);
    ProductSign(delay - wait, rule.rate);
    assert (delay - wait) * rule.rate == delay * rule.rate - (requested - tokens);
    assert Refill(rule, now, now + delay) == delay * rule.rate;
  }

  // ----- any block of calls, by any clients -----

  function Final(rule: Rule, b: Option<Bucket>, calls: seq<Call>): Option<Bucket>
    decreases |calls|
  {
    if calls == [] then b
    else Final(rule, Some(Spend(rule, b, calls[0].now, calls[0].requested)), calls[1..])
  }

  function Decisions(rule: Rule, b: Option<Bucket>, calls: seq<Call>): seq<Decision>
    requires rule.rate > 0.0
    decreases |calls|
  {
    if calls == [] then []
    else [Decide(rule, b, calls[0].now, calls[0].requested)]
         + Decisions(rule, Some(Spend(rule, b, calls[0].now, calls[0].requested)), calls[1..])
  }

  /** The tokens handed out in a block whose decisions are `ds`. */
  function Granted(calls: seq<Call>, ds: seq<Decision>): real
    requires |calls| == |ds|
  {
    if calls == [] then 0.0
    else (if ds[0].allowed then calls[0].requested else 0.0) + Granted(calls[1..], ds[1..])
  }

  /** The sum of the forward steps of the client clocks, starting at `last`. */
  function Forward(last: real, calls: seq<Call>): real
    decreases |calls|
  {
    if calls == [] then 0.0
    else Max(0.0, calls[0].now - last) + Forward(calls[0].now, calls[1..])
  }

  /** What those forward steps are worth in tokens. */
  function Brought(rule: Rule, last: real, calls: seq<Call>): real
    decreases |calls|
  {
    if calls == [] then 0.0
    else Refill(rule, last, calls[0].now) + Brought(rule, calls[0].now, calls[1..])
  }

  lemma {:induction false} BroughtIsRateTimesForward(rule: Rule, last: real, calls: seq<Call>)
    ensures Brought(rule, last, calls) == rule.rate * Forward(last, calls)
    decreases |calls|
  {
    if calls != [] {
      var step, rest := Max(0.0, calls[0].now - last), Forward(calls[0].now, calls[1..]);
      BroughtIsRateTimesForward(rule, calls[0].now, calls[1..]);
      assert rule.rate * (step + rest) == step * rule.rate + rule.rate * rest;
    }
  }

  /** What the capacity cap throws away over a block. */
  function Spilled(rule: Rule, b: Bucket, calls: seq<Call>): real
    decreases |calls|
  {
    if calls == [] then 0.0
    else b.tokens + Refill(rule, b.ts, calls[0].now) - Available(rule, Some(b), calls[0].now)
         + Spilled(rule, Spend(rule, Some(b), calls[0].now, calls[0].requested), calls[1..])
  }

  /** No token is created or lost: what is granted, what is left and what the cap
      spilled add up to what was there plus what the clocks brought. */
  lemma {:induction false} Conservation(rule: Rule, b: Bucket, calls: seq<Call>)
    requires Sane(rule) && InBounds(Some(b), rule)
    requires forall c :: c in calls ==> c.requested >= 0.0
    ensures |Decisions(rule, Some(b), calls)| == |calls|
    ensures Final(rule, Some(b), calls).Some? && InBounds(Final(rule, Some(b), calls), rule)
    ensures Spilled(rule, b, calls) >= 0.0
    ensures Granted(calls, Decisions(rule, Some(b), calls))
            + Final(rule, Some(b), calls).value.tokens + Spilled(rule, b, calls)
            == b.tokens + rule.rate * Forward(b.ts, calls)
  {
    ConservationInTokens(rule, b, calls);
    BroughtIsRateTimesForward(rule, b.ts, calls);
  }

  lemma {:induction false} ConservationInTokens(rule: Rule, b: Bucket, calls: seq<Call>)
    requires Sane(rule) && InBounds(Some(b), rule)
    requires forall c :: c in calls ==> c.requested >= 0.0
    ensures |Decisions(rule, Some(b), calls)| == |calls|
    ensures Final(rule, Some(b), calls).Some? && InBounds(Final(rule, Some(b), calls), rule)
    ensures Spilled(rule, b, calls) >= 0.0
    ensures Granted(calls, Decisions(rule, Some(b), calls))
            + Final(rule, Some(b), calls).value.tokens + Spilled(rule, b, calls)
            == b.tokens + Brought(rule, b.ts, calls)
    decreases |calls|
  {
    if calls != [] {
      var c, rest := calls[0], calls[1..];
      var b' := Spend(rule, Some(b), c.now, c.requested);
      CallStaysInBounds(rule, Some(b), c.now, c.requested);
      ConservationInTokens(rule, b', rest);
      assert Decisions(rule, Some(b), calls)[1..] == Decisions(rule, Some(b'), rest);
    }
  }

  /** A block decides alike from `b` and from the refilled bucket its first call sees. */
  lemma FirstCallRefills(rule: Rule, b: Option<Bucket>, calls: seq<Call>)
    requires Sane(rule) && InBounds(b, rule) && calls != [] && calls[0].requested >= 0.0
    ensures var full := Bucket(Available(rule, b, calls[0].now), calls[0].now);
            && InBounds(Some(full), rule)
            && Decisions(rule, b, calls) == Decisions(rule, Some(full), calls)
  {
    var now := calls[0].now;
    CallStaysInBounds(rule, b, now, calls[0].requested);
    var full := Bucket(Available(rule, b, now), now);
    assert Refill(rule, now, now) == 0.0;
    assert Available(rule, Some(full), now) == Available(rule, b, now);
  }

  /** A full bucket and the refill of `span` seconds. */
  function Allowance(rule: Rule, span: real): real {
    rule.capacity + rule.rate * span
  }

  /** A bucket that never expires grants a block at most a full bucket plus the
      refill of the forward clock steps. */
  lemma LastingBucketBound(rule: Rule, b: Option<Bucket>, calls: seq<Call>)
    requires Sane(rule) && InBounds(b, rule) && calls != []
    requires forall c :: c in calls ==> c.requested >= 0.0
    ensures |Decisions(rule, b, calls)| == |calls|
    ensures Granted(calls, Decisions(rule, b, calls)) <= Allowance(rule, Forward(calls[0].now, calls))
  {
    FirstCallRefills(rule, b, calls);
    GrantedFromBucket(rule, Bucket(Available(rule, b, calls[0].now), calls[0].now), calls);
  }

  lemma GrantedFromBucket(rule: Rule, b: Bucket, calls: seq<Call>)
    requires Sane(rule) && InBounds(Some(b), rule)
    requires forall c :: c in calls ==> c.requested >= 0.0
    ensures |Decisions(rule, Some(b), calls)| == |calls|
    ensures Granted(calls, Decisions(rule, Some(b), calls)) <= Allowance(rule, Forward(b.ts, calls))
  {
    ConservationInTokens(rule, b, calls);
    AllowanceIsBrought(rule, b.ts, calls);
  }

  lemma AllowanceIsBrought(rule: Rule, last: real, calls: seq<Call>)
    ensures Allowance(rule, Forward(last, calls)) == rule.capacity + Brought(rule, last, calls)
  {
    BroughtIsRateTimesForward(rule, last, calls);
  }

  lemma {:induction false} ForwardTelescopes(last: real, calls: seq<Call>)
    requires calls != [] && last <= calls[0].now
    requires forall i, j :: 0 <= i < j < |calls| ==> calls[i].now <= calls[j].now
    ensures Forward(last, calls) == calls[|calls| - 1].now - last
    decreases |calls|
  {
    if |calls| > 1 {
      var rest := calls[1..];
      assert rest[0] == calls[1] && rest[|rest| - 1] == calls[|calls| - 1];
      ForwardTelescopes(calls[0].now, rest);
    } else {
      assert Forward(calls[0].now, calls[1..]) == 0.0;
    }
  }

  // ----- key expiry -----

  function ExpiringDecisions(rule: Rule, e: Option<Entry>, calls: seq<Call>): seq<Decision>
    requires rule.rate > 0.0
    decreases |calls|
  {
    if calls == [] then []
    else [Decide(rule, Live(e, calls[0].server), calls[0].now, calls[0].requested)]
         + ExpiringDecisions(rule, Some(Store(rule, e, calls[0])), calls[1..])
  }

  /** How often a block finds that the key has expired. */
  function Expiries(rule: Rule, e: Option<Entry>, calls: seq<Call>): nat
    requires rule.rate > 0.0
    decreases |calls|
  {
    if calls == [] then 0
    else (if e.Some? && Live(e, calls[0].server).None? then 1 else 0)
         + Expiries(rule, Some(Store(rule, e, calls[0])), calls[1..])
  }

  /** The key outlives the gap between two calls, unless the client clocks have gone
      far enough meanwhile to refill the bucket anyway. */
  predicate InTime(rule: Rule, a: Call, b: Call)
    requires rule.rate > 0.0
  {
    b.server >= a.server + Ttl(rule) ==> Refill(rule, a.now, b.now) >= rule.capacity
  }

  ghost predicate Timely(rule: Rule, calls: seq<Call>)
    requires rule.rate > 0.0
  {
    forall i, j :: 0 <= i && j == i + 1 < |calls| ==> InTime(rule, calls[i], calls[j])
  }

  /** Refilled to the brim, a bucket is as good as a new one. */
  lemma FullIsNew(rule: Rule, b: Bucket, calls: seq<Call>)
    requires Sane(rule) && InBounds(Some(b), rule)
    requires calls != [] && Refill(rule, b.ts, calls[0].now) >= rule.capacity
    ensures Decisions(rule, None, calls) == Decisions(rule, Some(b), calls)
  {
    assert Available(rule, Some(b), calls[0].now) == Available(rule, None, calls[0].now);
  }

  /** Expiry is invisible in a timely block, whatever the clocks do otherwise: the
      bucket whose key vanishes gives the same answers, refusals and waits included,
      as one that is never forgotten. */
  lemma {:induction false} ExpiryInvisible(rule: Rule, e: Option<Entry>, calls: seq<Call>)
    requires Sane(rule) && Timely(rule, calls) && calls != []
    requires forall c :: c in calls ==> c.requested >= 0.0
    requires e.Some? ==> InBounds(Some(e.value.bucket), rule)
    ensures ExpiringDecisions(rule, e, calls) == Decisions(rule, Live(e, calls[0].server), calls)
    decreases |calls|
  {
    var c, rest := calls[0], calls[1..];
    CallStaysInBounds(rule, Live(e, c.server), c.now, c.requested);
    if rest != [] {
      var e' := Store(rule, e, c);
      ExpiryInvisible(rule, Some(e'), rest);
      if Live(Some(e'), rest[0].server).None? {
        assert InTime(rule, c, rest[0]);
        FullIsNew(rule, e'.bucket, rest);
      }
    }
  }

  /** The rate bound of the script as it is, EXPIRE included: from any entry, a timely
      block is granted at most a full bucket plus the refill of the forward clock
      steps; when no clock goes back, that is capacity + rate x window. */
  lemma {:induction false} RateBound(rule: Rule, e: Option<Entry>, calls: seq<Call>)
    requires Sane(rule) && Timely(rule, calls) && calls != []
    requires forall c :: c in calls ==> c.requested >= 0.0
    requires e.Some? ==> InBounds(Some(e.value.bucket), rule)
    ensures |ExpiringDecisions(rule, e, calls)| == |calls|
    ensures Granted(calls, ExpiringDecisions(rule, e, calls)) <= Allowance(rule, Forward(calls[0].now, calls))
    ensures (forall i, j :: 0 <= i < j < |calls| ==> calls[i].now <= calls[j].now) ==>
              Forward(calls[0].now, calls) == calls[|calls| - 1].now - calls[0].now
  {
    ExpiryInvisible(rule, e, calls);
    LastingBucketBound(rule, Live(e, calls[0].server), calls);
    if forall i, j :: 0 <= i < j < |calls| ==> calls[i].now <= calls[j].now {
      ForwardTelescopes(calls[0].now, calls);
    }
  }

  // ----- exactly when -----

  /** `asked` is made at the same moments as `calls`, for whatever it asks, and `e` is
      an entry that a block may start from. */
  ghost predicate Comparable(rule: Rule, e: Option<Entry>, asked: seq<Call>, calls: seq<Call>) {
    && (e.Some? ==> InBounds(Some(e.value.bucket), rule))
    && (forall c :: c in asked ==> c.requested >= 0.0)
    && |asked| == |calls|
    && forall i :: 0 <= i < |asked| ==> asked[i].now == calls[i].now && asked[i].server == calls[i].server
  }

  /** No block of calls at these moments shows that the key expires. */
  ghost predicate Invisible(rule: Rule, calls: seq<Call>)
    requires rule.rate > 0.0 && calls != []
  {
    forall e, asked :: Comparable(rule, e, asked, calls) ==>
      ExpiringDecisions(rule, e, asked) == Decisions(rule, Live(e, calls[0].server), asked)
  }

  /** No block of calls at these moments is granted more than its allowance. */
  ghost predicate Bounded(rule: Rule, calls: seq<Call>)
    requires rule.rate > 0.0 && calls != []
  {
    forall e, asked :: Comparable(rule, e, asked, calls) ==>
      && |ExpiringDecisions(rule, e, asked)| == |asked|
      && Granted(asked, ExpiringDecisions(rule, e, asked)) <= Allowance(rule, Forward(calls[0].now, calls))
  }

  lemma {:induction false} ForwardIsOfClocks(last: real, a: seq<Call>, b: seq<Call>)
    requires |a| == |b| && forall i :: 0 <= i < |a| ==> a[i].now == b[i].now
    ensures Forward(last, a) == Forward(last, b)
    decreases |a|
  {
    if a != [] {
      ForwardIsOfClocks(a[0].now, a[1..], b[1..]);
    }
  }

  lemma TimelyBlock(rule: Rule, calls: seq<Call>)
    requires Sane(rule) && Timely(rule, calls) && calls != []
    ensures Invisible(rule, calls) && Bounded(rule, calls)
  {
    forall e, asked | Comparable(rule, e, asked, calls)
      ensures ExpiringDecisions(rule, e, asked) == Decisions(rule, Live(e, calls[0].server), asked)
      ensures |ExpiringDecisions(rule, e, asked)| == |asked|
      ensures Granted(asked, ExpiringDecisions(rule, e, asked)) <= Allowance(rule, Forward(calls[0].now, calls))
    {
      forall i, j | 0 <= i && j == i + 1 < |asked|
        ensures InTime(rule, asked[i], asked[j])
      {
        assert InTime(rule, calls[i], calls[j]);
      }
      ExpiryInvisible(rule, e, asked);
      RateBound(rule, e, asked);
      ForwardIsOfClocks(calls[0].now, asked, calls);
    }
  }

  /** What a block of two calls decides, is granted and brings. */
  lemma BlockOfTwo(rule: Rule, e: Option<Entry>, x: Call, y: Call)
    requires rule.rate > 0.0
    ensures var first, d := Store(rule, e, x), Decide(rule, Live(e, x.server), x.now, x.requested);
            && ExpiringDecisions(rule, e, [x, y]) == [d, Decide(rule, Live(Some(first), y.server), y.now, y.requested)]
            && Decisions(rule, Live(e, x.server), [x, y]) == [d, Decide(rule, Some(first.bucket), y.now, y.requested)]
    ensures var ds := ExpiringDecisions(rule, e, [x, y]);
            ds[0].allowed && ds[1].allowed ==> Granted([x, y], ds) == x.requested + y.requested
    ensures Forward(x.now, [x, y]) == Max(0.0, y.now - x.now)
  {
    var first := Store(rule, e, x);
    assert [x, y][1..] == [y] && [y][1..] == [];
    assert ExpiringDecisions(rule, Some(first), [y]) == [Decide(rule, Live(Some(first), y.server), y.now, y.requested)];
    assert Decisions(rule, Some(first.bucket), [y]) == [Decide(rule, Some(first.bucket), y.now, y.requested)];
    assert Forward(x.now, [y]) == Max(0.0, y.now - x.now);
    var ds := ExpiringDecisions(rule, e, [x, y]);
    assert ds[1..] == [ds[1]] && [ds[1]][1..] == [];
    assert Granted([y], ds[1..]) == if ds[1].allowed then y.requested else 0.0;
  }

  /** Two calls that are not in time can each take a whole bucketful: the second finds
      a new bucket where an unforgotten one would have refused. */
  lemma LatePair(rule: Rule, a: Call, b: Call)
    requires Sane(rule) && !InTime(rule, a, b)
    ensures !Invisible(rule, [a, b]) && !Bounded(rule, [a, b])
  {
    var x, y := Call(a.now, a.server, rule.capacity), Call(b.now, b.server, rule.capacity);
    assert Comparable(rule, None, [x, y], [a, b]);
    BlockOfTwo(rule, None, x, y);
    BlockOfTwo(rule, None, a, b);
    var first := Store(rule, None, x);
    assert first.bucket == Bucket(0.0, a.now) && Live(Some(first), b.server) == None;
    assert !Decide(rule, Some(first.bucket), b.now, rule.capacity).allowed;
    assert Allowance(rule, Forward(a.now, [a, b])) == rule.capacity + Refill(rule, a.now, b.now);
  }

  /** Expiry is invisible in every block of a sequence of moments, whatever is asked,
      exactly if the sequence is timely. */
  lemma ExpiryInvisibleIffTimely(rule: Rule, calls: seq<Call>)
    requires Sane(rule)
    ensures Timely(rule, calls) <==> forall i, j :: 0 <= i < j <= |calls| ==> Invisible(rule, calls[i..j])
  {
    BlocksIffTimely(rule, calls);
  }

  /** And so is the rate bound. */
  lemma RateBoundIffTimely(rule: Rule, calls: seq<Call>)
    requires Sane(rule)
    ensures Timely(rule, calls) <==> forall i, j :: 0 <= i < j <= |calls| ==> Bounded(rule, calls[i..j])
  {
    BlocksIffTimely(rule, calls);
  }

  lemma BlocksIffTimely(rule: Rule, calls: seq<Call>)
    requires Sane(rule)
    ensures Timely(rule, calls) ==> forall i, j :: 0 <= i < j <= |calls| ==>
            Invisible(rule, calls[i..j]) && Bounded(rule, calls[i..j])
    ensures !Timely(rule, calls) ==>
              exists i, j :: 0 <= i < j <= |calls| && !Invisible(rule, calls[i..j]) && !Bounded(rule, calls[i..j])
  {
    if Timely(rule, calls) {
      forall i, j | 0 <= i < j <= |calls|
        ensures Invisible(rule, calls[i..j]) && Bounded(rule, calls[i..j])
      {
        TimelyBlock(rule, calls[i..j]);
      }
    } else {
      var i, j :| 0 <= i && j == i + 1 < |calls| && !InTime(rule, calls[i], calls[j]);
      LatePair(rule, calls[i], calls[j]);
      assert calls[i..j + 1] == [calls[i], calls[j]];
    }
  }

  /** A bucket is kept for the whole seconds that it takes to fill up, and 60 more. */
  lemma TtlInSeconds(rule: Rule)
    requires rule.rate > 0.0
    ensures var filling := Ttl(rule) - 60.0;
            filling == filling.Floor as real && filling - 1.0 < rule.capacity / rule.rate <= filling
  {
    CeilBounds(rule.capacity / rule.rate);
    assert (Ceil(rule.capacity / rule.rate) + 60) as real == Ceil(rule.capacity / rule.rate) as real + 60.0;
  }

  lemma CeilBounds(x: real)
    ensures var c := Ceil(x) as real; c == c.Floor as real && c - 1.0 < x <= c
  {
  }

  /** The script's 60 seconds of grace: clocks are in time if each step of the clients'
      is at most that much behind the server's, one common clock for one. */
  ghost predicate WithinGrace(calls: seq<Call>) {
    forall i, j :: 0 <= i && j == i + 1 < |calls| ==>
      calls[j].now - calls[i].now >= calls[j].server - calls[i].server - 60.0
  }

  lemma {:induction false} GraceIsTimely(rule: Rule, calls: seq<Call>)
    requires Sane(rule) && WithinGrace(calls)
    ensures Timely(rule, calls)
  {
    forall i, j | 0 <= i && j == i + 1 < |calls|
      ensures InTime(rule, calls[i], calls[j])
    {
      if calls[j].server >= calls[i].server + Ttl(rule) {
        RefillTime(rule, calls[i].now, calls[j].now);
      }
    }
  }

  lemma RefillTime(rule: Rule, last: real, now: real)
    requires Sane(rule) && now - last >= Ttl(rule) - 60.0
    ensures Refill(rule, last, now) >= rule.capacity
  {
    var full := rule.capacity / rule.rate;
    assert full * rule.rate == rule.capacity;
    ProductSign(full, rule.rate);
    ProductSign(now - last - full, rule.rate);
    assert (now - last - full) * rule.rate == (now - last) * rule.rate - rule.capacity;
  }

  /** Past the grace the bound does break: one client's clock runs far ahead, and two
      tokens come out of a bucket that holds one and has been brought none. */
  lemma SkewedClocksBreakTheBound()
    ensures var rule, calls := Rule(1.0, 1.0), [Call(1000.0, 0.0, 1.0), Call(61.0, 61.0, 1.0)];
            var ds := ExpiringDecisions(rule, None, calls);
            |ds| == 2 && Granted(calls, ds) == 2.0 && Allowance(rule, Forward(calls[0].now, calls)) == 1.0
  {
    BlockOfTwo(Rule(1.0, 1.0), None, Call(1000.0, 0.0, 1.0), Call(61.0, 61.0, 1.0));
  }

  /** A full bucket for every expiry that a block runs into. */
  function Windfall(rule: Rule, e: Option<Entry>, calls: seq<Call>): real
    requires rule.rate > 0.0
    decreases |calls|
  {
    if calls == [] then 0.0
    else (if e.Some? && Live(e, calls[0].server).None? then rule.capacity else 0.0)
         + Windfall(rule, Some(Store(rule, e, calls[0])), calls[1..])
  }

  lemma {:induction false} WindfallIsCapacityTimesExpiries(rule: Rule, e: Option<Entry>, calls: seq<Call>)
    requires rule.rate > 0.0
    ensures Windfall(rule, e, calls) == rule.capacity * Expiries(rule, e, calls) as real
    decreases |calls|
  {
    if calls != [] {
      var e' := Some(Store(rule, e, calls[0]));
      var more := Expiries(rule, e', calls[1..]);
      WindfallIsCapacityTimesExpiries(rule, e', calls[1..]);
      assert rule.capacity * (more + 1) as real == rule.capacity * more as real + rule.capacity;
    }
  }

  /** Whatever the clocks do, each expiry costs at most one bucketful beyond the bound. */
  lemma RateBoundWithSkewedClocks(rule: Rule, e: Entry, calls: seq<Call>)
    requires Sane(rule) && InBounds(Some(e.bucket), rule)
    requires forall c :: c in calls ==> c.requested >= 0.0
    ensures |ExpiringDecisions(rule, Some(e), calls)| == |calls|
    ensures Granted(calls, ExpiringDecisions(rule, Some(e), calls))
            <= e.bucket.tokens + rule.rate * Forward(e.bucket.ts, calls)
               + rule.capacity * Expiries(rule, Some(e), calls) as real
  {
    SkewedBoundInTokens(rule, e, calls);
    var most := SkewedBoundInProducts(rule, e, calls);
  }

  lemma SkewedBoundInProducts(rule: Rule, e: Entry, calls: seq<Call>) returns (most: real)
    requires rule.rate > 0.0
    ensures most == e.bucket.tokens + Brought(rule, e.bucket.ts, calls) + Windfall(rule, Some(e), calls)
    ensures most
            == e.bucket.tokens + rule.rate * Forward(e.bucket.ts, calls)
               + rule.capacity * Expiries(rule, Some(e), calls) as real
  {
    BroughtIsRateTimesForward(rule, e.bucket.ts, calls);
    WindfallIsCapacityTimesExpiries(rule, Some(e), calls);
    most := e.bucket.tokens + Brought(rule, e.bucket.ts, calls) + Windfall(rule, Some(e), calls);
  }

  lemma {:induction false} SkewedBoundInTokens(rule: Rule, e: Entry, calls: seq<Call>)
    requires Sane(rule) && InBounds(Some(e.bucket), rule)
    requires forall c :: c in calls ==> c.requested >= 0.0
    ensures |ExpiringDecisions(rule, Some(e), calls)| == |calls|
    ensures Granted(calls, ExpiringDecisions(rule, Some(e), calls))
            <= e.bucket.tokens + Brought(rule, e.bucket.ts, calls) + Windfall(rule, Some(e), calls)
    decreases |calls|
  {
    if calls != [] {
      var c, rest := calls[0], calls[1..];
      var e' := Store(rule, Some(e), c);
      CallStaysInBounds(rule, Live(Some(e), c.server), c.now, c.requested);
      ProductSign(Max(0.0, c.now - e.bucket.ts), rule.rate);
      SkewedBoundInTokens(rule, e', rest);
      assert ExpiringDecisions(rule, Some(e), calls)[1..] == ExpiringDecisions(rule, Some(e'), rest);
    }
  }
}
