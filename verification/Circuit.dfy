/** The per-domain circuit breaker (scrapequeue/queue/circuit.py) over Redis keys
    that expire on a whole-second clock.  Each breaker method is one atomic step. */
module Circuit {
  import opened Wrappers
  import opened Numbers

  datatype CircuitState = CLOSED | HALF_OPEN | OPEN

  /** What is alive in Redis for one domain: the failure counter with its deadline,
      and the deadlines of the open key and of the probe key. */
  datatype Counter = Counter(count: int, deadline: int)

  datatype Keys = Keys(fails: Option<Counter>, open: Option<int>, probe: Option<int>)

  datatype Settings = Settings(threshold: int, openSeconds: int)

  const NONE := Keys(None, None, None)

  /** Redis forgets a key at its deadline. */
  function Expire(k: Keys, now: int): Keys {
    Keys(if k.fails.Some? && now < k.fails.value.deadline then k.fails else None,
         if k.open.Some? && now < k.open.value then k.open else None,
         if k.probe.Some? && now < k.probe.value then k.probe else None)
  }

  lemma ExpireTwice(k: Keys, now: int, later: int, s: Settings)
    requires now <= later
    ensures Expire(Expire(k, now), later) == Expire(k, later)
    ensures Failed(Expire(k, now), later, s) == Failed(k, later, s)
  {
  }

  predicate IsOpen(k: Keys, now: int) {
    k.open.Some? && now < k.open.value
  }

  function Asked(k: Keys, now: int): (r: (Keys, CircuitState))
  {
    var live := Expire(k, now);
    if live.open.None? then (live, CLOSED)
    else if live.probe.None? then (live.(probe := Some(now + Max(live.open.value - now, 1))), HALF_OPEN)
    else (live, OPEN)
  }

  function Failed(k: Keys, now: int, s: Settings): (r: (Keys, CircuitState)) {
    var live := Expire(k, now);
    var count := if live.fails.Some? then live.fails.value.count + 1 else 1;
    var counted := live.(fails := Some(Counter(count, now + s.openSeconds)));
    if count >= s.threshold then (counted.(open := Some(now + s.openSeconds)), OPEN)
    else (counted, CLOSED)
  }

  // ----- the class over Redis -----

  datatype Value = Value(content: int, deadline: Option<int>)

  /** The commands of Redis that the breaker uses. */
  class Redis {
    var now: int
    var data: map<string, Value>

    constructor (now: int)
      ensures data == map[] && this.now == now
    {
      this.now := now;
      data := map[];
    }

    predicate Alive(key: string)
      reads this
    {
      key in data && (data[key].deadline.Some? ==> now < data[key].deadline.value)
    }

    /** -2 for a missing key, -1 for one without a deadline. */
    method Ttl(key: string) returns (ttl: int)
      ensures ttl == if !Alive(key) then -2
                     else if data[key].deadline.None? then -1 else data[key].deadline.value - now
    {
      if !Alive(key) {
        return -2;
      }
      ttl := if data[key].deadline.Some? then data[key].deadline.value - now else -1;
    }

    method Set(key: string, content: int, ex: int)
      modifies this`data
      ensures data == old(data)[key := Value(content, Some(now + ex))]
    {
      data := data[key := Value(content, Some(now + ex))];
    }

    method SetIfAbsent(key: string, content: int, ex: int) returns (claimed: bool)
      modifies this`data
      ensures claimed <==> !old(Alive(key))
      ensures data == if claimed then old(data)[key := Value(content, Some(now + ex))] else old(data)
    {
      claimed := !Alive(key);
      if claimed {
        Set(key, content, ex);
      }
    }

    /** INCR keeps a deadline; a missing key counts from 0 and has none. */
    method Incr(key: string) returns (count: int)
      modifies this`data
      ensures count == if old(Alive(key)) then old(data)[key].content + 1 else 1
      ensures data == old(data)[key := Value(count, if old(Alive(key)) then old(data)[key].deadline else None)]
    {
      if Alive(key) {
        count := data[key].content + 1;
        data := data[key := Value(count, data[key].deadline)];
      } else {
        count := 1;
        data := data[key := Value(1, None)];
      }
    }

    method SetDeadline(key: string, ex: int)
      modifies this`data
      ensures data == if old(Alive(key)) then old(data)[key := Value(old(data)[key].content, Some(now + ex))]
              else old(data)
    {
      if Alive(key) {
        data := data[key := Value(data[key].content, Some(now + ex))];
      }
    }

    method Delete(keys: set<string>)
      modifies this`data
      ensures data == old(data) - keys
    {
      data := data - keys;
    }
  }

  function FailsKey(prefix: string, domain: string): string { prefix + ":" + domain + ":fails" }

  function OpenKey(prefix: string, domain: string): string { prefix + ":" + domain + ":open" }

  function ProbeKey(prefix: string, domain: string): string { prefix + ":" + domain + ":probe" }

  lemma SuffixDecides(a: string, b: string, s: string, t: string)
    requires s != [] && t != [] && a + s == b + t
    ensures s[|s| - 1] == t[|t| - 1]
    ensures |s| == |t| ==> a == b
  {
    assert (a + s)[|a + s| - 1] == (b + t)[|b + t| - 1];
    if |s| == |t| {
      assert (a + s)[..|a|] == a && (b + t)[..|b|] == b;
    }
  }

  /** No two keys of one deployment are the same string, whatever the domains. */
  lemma KeysAreDistinct(prefix: string, d: string, e: string)
    ensures FailsKey(prefix, d) != OpenKey(prefix, e)
    ensures FailsKey(prefix, d) != ProbeKey(prefix, e)
    ensures OpenKey(prefix, d) != ProbeKey(prefix, e)
    ensures FailsKey(prefix, d) == FailsKey(prefix, e) ==> d == e
    ensures OpenKey(prefix, d) == OpenKey(prefix, e) ==> d == e
    ensures ProbeKey(prefix, d) == ProbeKey(prefix, e) ==> d == e
  {
    var pd, pe := prefix + ":" + d, prefix + ":" + e;
    if FailsKey(prefix, d) == OpenKey(prefix, e) { SuffixDecides(pd, pe, ":fails", ":open"); }
    if FailsKey(prefix, d) == ProbeKey(prefix, e) { SuffixDecides(pd, pe, ":fails", ":probe"); }
    if OpenKey(prefix, d) == ProbeKey(prefix, e) { SuffixDecides(pd, pe, ":open", ":probe"); }
    if FailsKey(prefix, d) == FailsKey(prefix, e) { SuffixDecides(pd, pe, ":fails", ":fails"); }
    if OpenKey(prefix, d) == OpenKey(prefix, e) { SuffixDecides(pd, pe, ":open", ":open"); }
    if ProbeKey(prefix, d) == ProbeKey(prefix, e) { SuffixDecides(pd, pe, ":probe", ":probe"); }
    if pd == pe {
      assert d == pd[|prefix| + 1..] && e == pe[|prefix| + 1..];
    }
  }

  class CircuitBreaker {
    const redis: Redis
    const prefix: string
    const settings: Settings

    constructor (redis: Redis, prefix: string, settings: Settings)
      ensures this.redis == redis && this.prefix == prefix && this.settings == settings
    {
      this.redis := redis;
      this.prefix := prefix;
      this.settings := settings;
    }

    /** The breaker's own keys always carry a deadline. */
    ghost predicate Valid(domain: string)
      reads this, redis
    {
      forall k :: k in KeysOf(domain) && k in redis.data ==> redis.data[k].deadline.Some?
    }

    /** What the breaker sees of a domain. */
    ghost function View(domain: string): Keys
      reads this, redis
      requires Valid(domain)
    {
      var f, o, p := FailsKey(prefix, domain), OpenKey(prefix, domain), ProbeKey(prefix, domain);
      Keys(if redis.Alive(f) then Some(Counter(redis.data[f].content, redis.data[f].deadline.value)) else None,
           if redis.Alive(o) then redis.data[o].deadline else None,
           if redis.Alive(p) then redis.data[p].deadline else None)
    }

    /** One domain's step leaves every other domain alone. */
    twostate predicate OthersUnchanged(domain: string)
      reads this, redis
    {
      forall d :: d != domain && old(Valid(d)) ==> Valid(d) && View(d) == old(View(d))
    }

    /** As time goes by the view only loses the keys that expire. */
    twostate lemma ViewLater(domain: string)
      requires old(Valid(domain)) && redis.data == old(redis.data) && old(redis.now) <= redis.now
      ensures Valid(domain) && View(domain) == Expire(old(View(domain)), redis.now)
    {
      KeysAreDistinct(prefix, domain, domain);
    }

    method State(domain: string) returns (state: CircuitState, ttl: int)
      requires Valid(domain)
      modifies redis`data
      ensures Valid(domain) && OthersUnchanged(domain)
      ensures (View(domain), state) == Asked(old(View(domain)), redis.now)
      ensures ttl == if state == CLOSED then 0 else old(View(domain)).open.value - redis.now
    {
      KeysAreDistinct(prefix, domain, domain);
      ttl := redis.Ttl(OpenKey(prefix, domain));
      if ttl < 0 {
        OthersKept(domain);
        return CLOSED, 0;
      }
      var claimed := redis.SetIfAbsent(ProbeKey(prefix, domain), 1, Max(ttl, 1));
      state := if claimed then HALF_OPEN else OPEN;
      OthersKept(domain);
    }

    /** Refuses, with the remaining seconds, unless the circuit is closed or this
        caller gets the probe. */
    method AssertClosed(domain: string) returns (r: Result<CircuitState, int>)
      requires Valid(domain)
      modifies redis`data
      ensures Valid(domain) && OthersUnchanged(domain)
      ensures View(domain) == Asked(old(View(domain)), redis.now).0
      ensures r == match Asked(old(View(domain)), redis.now).1
                   case OPEN => Err(old(View(domain)).open.value - redis.now)
                   case passed => Ok(passed)
    {
      var state, ttl := State(domain);
      r := if state == OPEN then Err(ttl) else Ok(state);
    }

    method RecordSuccess(domain: string)
      requires Valid(domain)
      modifies redis`data
      ensures Valid(domain) && OthersUnchanged(domain)
      ensures View(domain) == NONE
    {
      KeysAreDistinct(prefix, domain, domain);
      redis.Delete({FailsKey(prefix, domain), OpenKey(prefix, domain), ProbeKey(prefix, domain)});
      OthersKept(domain);
    }

    method RecordFailure(domain: string) returns (state: CircuitState)
      requires Valid(domain) && settings.openSeconds >= 1
      modifies redis`data
      ensures Valid(domain) && OthersUnchanged(domain)
      ensures (View(domain), state) == Failed(old(View(domain)), redis.now, settings)
    {
      KeysAreDistinct(prefix, domain, domain);
      var fails := redis.Incr(FailsKey(prefix, domain));
      redis.SetDeadline(FailsKey(prefix, domain), settings.openSeconds);
      if fails >= settings.threshold {
        redis.Set(OpenKey(prefix, domain), 1, settings.openSeconds);
        OthersKept(domain);
        return OPEN;
      }
      OthersKept(domain);
      state := CLOSED;
    }

    twostate lemma OthersKept(domain: string)
      requires redis.data - KeysOf(domain) == old(redis.data) - KeysOf(domain)
      requires redis.now == old(redis.now)
      ensures OthersUnchanged(domain)
    {
      forall d | d != domain && old(Valid(d))
        ensures Valid(d) && View(d) == old(View(d))
      {
        KeysAreDistinct(prefix, d, domain);
        KeysAreDistinct(prefix, domain, d);
        forall k | k in KeysOf(d)
          ensures k in redis.data <==> k in old(redis.data)
          ensures k in redis.data ==> redis.data[k] == old(redis.data)[k]
        {
          assert k !in KeysOf(domain);
          assert k in redis.data <==> k in redis.data - KeysOf(domain);
          assert k in old(redis.data) <==> k in old(redis.data) - KeysOf(domain);
        }
        assert FailsKey(prefix, d) in KeysOf(d) && OpenKey(prefix, d) in KeysOf(d) && ProbeKey(prefix, d) in KeysOf(d);
      }
    }

    ghost function KeysOf(domain: string): set<string> {
      {FailsKey(prefix, domain), OpenKey(prefix, domain), ProbeKey(prefix, domain)}
    }
  }

  // ----- histories of one domain -----

  datatype Kind = Check | Success | Failure

  datatype Event = Event(at: int, kind: Kind)

  function Apply(k: Keys, e: Event, s: Settings): (Keys, CircuitState) {
    match e.kind
    case Check => Asked(k, e.at)
    case Success => (NONE, CLOSED)
    case Failure => Failed(k, e.at, s)
  }

  /** The keys after a history that starts with none. */
  function Run(h: seq<Event>, s: Settings): Keys {
    if h == [] then NONE else Apply(Run(h[..|h| - 1], s), h[|h| - 1], s).0
  }

  /** What the i-th method call of a history returned. */
  function Outcome(h: seq<Event>, i: nat, s: Settings): CircuitState
    requires i < |h|
  {
    Apply(Run(h[..i], s), h[i], s).1
  }

  predicate Ordered(h: seq<Event>) {
    forall i, j :: 0 <= i < j < |h| ==> h[i].at <= h[j].at
  }

  predicate Before(h: seq<Event>, now: int) {
    Ordered(h) && (h != [] ==> h[|h| - 1].at <= now)
  }

  /** The length of the current failure streak, from the history alone: failures
      since the last success, each less than openSeconds before the next one, the
      last less than openSeconds before `now`. */
  function Streak(h: seq<Event>, now: int, s: Settings): nat {
    if h == [] then 0
    else
      var front, e := h[..|h| - 1], h[|h| - 1];
      match e.kind
      case Check => Streak(front, now, s)
      case Success => 0
      case Failure => if now - e.at >= s.openSeconds then 0 else 1 + Streak(front, e.at, s)
  }

  /** The counter is the streak, and the open key says that the streak is long
      enough; both die at the same moment. */
  ghost predicate Agrees(k: Keys, streak: nat, now: int, s: Settings) {
    var live := Expire(k, now);
    && (live.fails.Some? <==> streak >= 1)
    && (live.fails.Some? ==> live.fails.value.count == streak && live.fails.value.deadline <= now + s.openSeconds)
    && (live.open.Some? <==> streak >= Max(1, s.threshold))
    && (live.open.Some? ==> live.open.value == live.fails.value.deadline)
  }

  lemma {:induction false} KeysAgreeWithStreak(h: seq<Event>, now: int, s: Settings)
    requires s.openSeconds >= 1 && Before(h, now)
    ensures Agrees(Run(h, s), Streak(h, now, s), now, s)
  {
    if h != [] {
      var front, e := h[..|h| - 1], h[|h| - 1];
      assert Before(front, e.at) by {
        if front != [] {
          assert front[|front| - 1] == h[|h| - 2];
        }
      }
      KeysAgreeWithStreak(front, e.at, s);
      if e.kind == Check {
        KeysAgreeWithStreak(front, now, s);
      }
    }
  }

  /** The circuit is open exactly while the failure streak has reached the threshold. */
  lemma OpenIffStreak(h: seq<Event>, now: int, s: Settings)
    requires s.openSeconds >= 1 && Before(h, now)
    ensures IsOpen(Run(h, s), now) <==> Streak(h, now, s) >= Max(1, s.threshold)
    ensures Asked(Run(h, s), now).1 == CLOSED <==> Streak(h, now, s) < Max(1, s.threshold)
  {
    KeysAgreeWithStreak(h, now, s);
  }

  /** While it is open the counter lives just as long, so that one more failure,
      a failed probe say, opens it again for a full period. */
  lemma {:induction false} FailedProbeReopens(h: seq<Event>, now: int, s: Settings)
    requires s.openSeconds >= 1 && Before(h, now) && IsOpen(Run(h, s), now)
    ensures var k := Run(h, s);
            && k.fails.Some? && k.fails.value.deadline == k.open.value
            && Outcome(h + [Event(now, Failure)], |h|, s) == OPEN
    ensures forall later :: now <= later ==>
              (IsOpen(Run(h + [Event(now, Failure)], s), later) <==> later < now + s.openSeconds)
  {
    KeysAgreeWithStreak(h, now, s);
    var h' := h + [Event(now, Failure)];
    assert h'[..|h|] == h && h'[..|h'| - 1] == h;
  }

  /** A failure is answered with OPEN exactly if it makes the streak long enough. */
  lemma FailureOpensIff(h: seq<Event>, now: int, s: Settings)
    requires s.openSeconds >= 1 && Before(h, now)
    ensures Outcome(h + [Event(now, Failure)], |h|, s) == if 1 + Streak(h, now, s) >= s.threshold then OPEN else CLOSED
  {
    KeysAgreeWithStreak(h, now, s);
    assert (h + [Event(now, Failure)])[..|h|] == h;
  }

  // ----- which checks are probes, from the history alone -----

  function LastFailure(h: seq<Event>): int {
    if h == [] then 0
    else if h[|h| - 1].kind == Failure then h[|h| - 1].at
    else LastFailure(h[..|h| - 1])
  }

  /** A check at `now` becomes the probe: the streak is long enough, and no earlier
      probe since the last success still holds its window. */
  predicate GetsProbe(h: seq<Event>, now: int, s: Settings)
    decreases |h|, 1
  {
    && Streak(h, now, s) >= Max(1, s.threshold)
    && (ProbeUntil(h, s).None? || ProbeUntil(h, s).value <= now)
  }

  /** The end of the window that the latest probe was given in. */
  function ProbeUntil(h: seq<Event>, s: Settings): Option<int>
    decreases |h|, 0
  {
    if h == [] then None
    else
      var front, e := h[..|h| - 1], h[|h| - 1];
      match e.kind
      case Success => None
      case Failure => ProbeUntil(front, s)
      case Check => if GetsProbe(front, e.at, s) then Some(LastFailure(front) + s.openSeconds) else ProbeUntil(front, s)
  }

  /** The keys of the window and of its probe, against the history. */
  ghost predicate ProbeAgrees(k: Keys, h: seq<Event>, now: int, s: Settings) {
    var live := Expire(k, now);
    && (live.fails.Some? ==> live.fails.value.deadline == LastFailure(h) + s.openSeconds)
    && live.probe == (if ProbeUntil(h, s).Some? && now < ProbeUntil(h, s).value then ProbeUntil(h, s) else None)
  }

  lemma {:induction false} ProbeKeyAgrees(h: seq<Event>, now: int, s: Settings)
    requires s.openSeconds >= 1 && Before(h, now)
    ensures ProbeAgrees(Run(h, s), h, now, s)
  {
    if h != [] {
      var front, e := h[..|h| - 1], h[|h| - 1];
      assert Before(front, e.at) by {
        if front != [] {
          assert front[|front| - 1] == h[|h| - 2];
        }
      }
      ProbeKeyAgrees(front, e.at, s);
      KeysAgreeWithStreak(front, e.at, s);
    }
  }

  /** Exactly which checks are let through as probes, and which are refused. */
  lemma ProbeIff(h: seq<Event>, now: int, s: Settings)
    requires s.openSeconds >= 1 && Before(h, now)
    ensures Asked(Run(h, s), now).1 == HALF_OPEN <==> GetsProbe(h, now, s)
    ensures Asked(Run(h, s), now).1 == OPEN <==> Streak(h, now, s) >= Max(1, s.threshold) && !GetsProbe(h, now, s)
  {
    ProbeKeyAgrees(h, now, s);
    KeysAgreeWithStreak(h, now, s);
  }

  // ----- probes -----

  /** This open window has given its probe away. */
  ghost predicate Claimed(k: Keys, now: int) {
    IsOpen(k, now) ==> k.probe.Some? && k.probe.value >= k.open.value
  }

  function Grants(h: seq<Event>, s: Settings): nat {
    if h == [] then 0
    else Grants(h[..|h| - 1], s) + if Outcome(h, |h| - 1, s) == HALF_OPEN then 1 else 0
  }

  /** The calls of record_failure that returned OPEN. */
  function Openings(h: seq<Event>, s: Settings): nat {
    if h == [] then 0
    else Openings(h[..|h| - 1], s)
         + if h[|h| - 1].kind == Failure && Outcome(h, |h| - 1, s) == OPEN then 1 else 0
  }

  /** Over any history, by any number of callers, there are never more probes than
      openings, and an unclaimed window has paid for its probe in advance. */
  lemma {:induction false} ProbesNeverExceedOpenings(h: seq<Event>, now: int, s: Settings)
    requires Before(h, now)
    ensures Grants(h, s) <= Openings(h, s)
    ensures !Claimed(Run(h, s), now) ==> Grants(h, s) < Openings(h, s)
  {
    if h != [] {
      var front, e := h[..|h| - 1], h[|h| - 1];
      assert Before(front, e.at) by {
        if front != [] {
          assert front[|front| - 1] == h[|h| - 2];
        }
      }
      ProbesNeverExceedOpenings(front, e.at, s);
    }
  }

  /** Between two probes the circuit was opened again. */
  lemma {:induction false} OpeningBetweenProbes(h: seq<Event>, i: nat, j: nat, s: Settings)
    requires Ordered(h) && i < j < |h|
    requires h[i].kind == h[j].kind == Check && Outcome(h, i, s) == Outcome(h, j, s) == HALF_OPEN
    ensures exists m :: i < m < j && h[m].kind == Failure && Outcome(h, m, s) == OPEN
  {
    if forall m :: i < m < j ==> !(h[m].kind == Failure && Outcome(h, m, s) == OPEN) {
      ClaimStands(h, i, j, s);
    }
  }

  lemma {:induction false} ClaimStands(h: seq<Event>, i: nat, j: nat, s: Settings)
    requires Ordered(h) && i < j < |h|
    requires h[i].kind == Check && Outcome(h, i, s) == HALF_OPEN
    requires forall m :: i < m < j ==> !(h[m].kind == Failure && Outcome(h, m, s) == OPEN)
    ensures Claimed(Run(h[..j], s), h[j].at)
    decreases j
  {
    var last := j - 1;
    assert h[..j][..last] == h[..last] && h[..j][last] == h[last];
    assert h[last].at <= h[j].at;
    if last > i {
      ClaimStands(h, i, last, s);
    }
  }
}
