/** The token bucket of internal/ratelimit/limiter.go: lazily refilled, lazily swept, with
    a clock in whole nanoseconds and tokens as reals. */
module RateLimit {
  import opened Wrappers
  import opened Reals

  type Key = string

  const SECOND := 1_000_000_000
  const SWEEP_INTERVAL := 60 * SECOND

  datatype Bucket = Bucket(tokens: real, last: int)

  datatype Config = Config(burst: real, refill: real)

  /** `NewLimiter`'s two numbers: the burst, and tokens per second; None switches limiting
      off. */
  function Configure(burst: int, window: int): Option<Config> {
    if burst <= 0 || window <= 0 then None else Some(Config(burst as real, burst as real / Seconds(window)))
  }

  function Seconds(d: int): real {
    d as real / SECOND as real
  }

  predicate Proper(c: Config) {
    c.burst >= 1.0 && c.refill > 0.0
  }

  lemma ConfiguredIsProper(burst: int, window: int)
    requires Configure(burst, window).Some?
    ensures Proper(Configure(burst, window).value)
  {
    var s := Seconds(window);
    assert s > 0.0;
    assert burst as real / s > 0.0;
  }

  // ----- one bucket

  /** The tokens a bucket would show at `now`. */
  function Filled(c: Config, b: Bucket, now: int): real {
    if now > b.last then Min(c.burst, b.tokens + Mul(Seconds(now - b.last), c.refill)) else b.tokens
  }

  /** Full again, so as good as none. */
  predicate Idle(c: Config, b: Bucket, now: int) {
    b.tokens + Mul(Seconds(now - b.last), c.refill) >= c.burst
  }

  /** The wait the caller is told, in nanoseconds, the fraction dropped. */
  function Wait(c: Config, tokens: real): int {
    Truncate(Mul(Quot(1.0 - tokens, c.refill), SECOND as real))
  }

  datatype Answer = Answer(ok: bool, wait: int)

  function Take(c: Config, tokens: real): (Answer, real) {
    if tokens >= 1.0 then (Answer(true, 0), tokens - 1.0) else (Answer(false, Wait(c, tokens)), tokens)
  }

  // ----- without sweeping: the simple limiter

  type Table = map<Key, Bucket>

  /** What a request for `key` finds: a fresh key has a full bucket. */
  function Level(c: Config, m: Table, key: Key, now: int): real {
    if key in m then Filled(c, m[key], now) else c.burst
  }

  function Unswept(c: Config, m: Table, key: Key, now: int): (Table, Answer) {
    var (a, tokens) := Take(c, Level(c, m, key, now));
    (m[key := Bucket(tokens, if key in m && m[key].last > now then m[key].last else now)], a)
  }

  // ----- with sweeping, as it is

  datatype Memory = Memory(buckets: Table, lastSweep: Option<int>)

  predicate SweepDue(lastSweep: Option<int>, now: int) {
    lastSweep.None? || now - lastSweep.value >= SWEEP_INTERVAL
  }

  function Swept(c: Config, s: Memory, now: int): Memory {
    if SweepDue(s.lastSweep, now) then
      Memory(map k | k in s.buckets && !Idle(c, s.buckets[k], now) :: s.buckets[k], Some(now))
    else s
  }

  function Allowed(c: Config, s: Memory, key: Key, now: int): (Memory, Answer) {
    var s1 := Swept(c, s, now);
    var (m, a) := Unswept(c, s1.buckets, key, now);
    (s1.(buckets := m), a)
  }

  /** After a sweep that was due, every bucket left was used more recently than the burst takes
      to refill, so idle clients cost no memory. */
  lemma SweptAreRecent(c: Config, s: Memory, now: int)
    requires s.lastSweep.None? || now - s.lastSweep.value >= 60_000_000_000
    requires forall k :: k in s.buckets ==> s.buckets[k].tokens >= 0.0
    ensures var s' := Swept(c, s, now);
      && s'.lastSweep == Some(now)
      && (forall k :: k in s'.buckets ==> k in s.buckets && s'.buckets[k] == s.buckets[k])
      && (forall k :: k in s'.buckets ==> Mul(Seconds(now - s.buckets[k].last), c.refill) < c.burst)
  {
    hide Mul, Seconds;
  }

  class Limiter {
    const config: Option<Config>
    var buckets: Table
    var lastSweep: Option<int>

    constructor (burst: int, window: int)
      ensures Valid() && config == Configure(burst, window) && State() == Memory(map[], None)
    {
      if burst > 0 && window > 0 {
        ConfiguredIsProper(burst, window);
      }
      config := Configure(burst, window);
      buckets, lastSweep := map[], None;
    }

    ghost predicate Valid()
      reads this
    {
      config.Some? ==> Proper(config.value)
    }

    function State(): Memory
      reads this
    {
      Memory(buckets, lastSweep)
    }

    method Sweep(now: int)
      requires config.Some?
      modifies this
      ensures State() == Swept(config.value, old(State()), now)
    {
      var c := config.value;
      hide Idle;
      if !SweepDue(lastSweep, now) {
        return;
      }
      lastSweep := Some(now);
      ghost var all := buckets;
      var keys := buckets.Keys;
      while keys != {}
        invariant keys <= all.Keys && lastSweep == Some(now)
        invariant buckets == map k | k in all && (k in keys || !Idle(c, all[k], now)) :: all[k]
        decreases |keys|
      {
        var k :| k in keys;
        if Idle(c, buckets[k], now) {
          buckets := buckets - {k};
        }
        keys := keys - {k};
      }
    }

    method Allow(key: Key, now: int) returns (ok: bool, wait: int)
      requires Valid()
      modifies this
      ensures Valid()
      ensures config.None? ==> State() == old(State()) && ok && wait == 0
      ensures config.Some? ==> (State(), Answer(ok, wait)) == Allowed(config.value, old(State()), key, now)
    {
      if config.None? {
        return true, 0;
      }
      var c := config.value;
      hide Idle, Wait, Mul;
      Sweep(now);
      if key !in buckets {
        buckets := buckets[key := Bucket(c.burst - 1.0, now)];
        return true, 0;
      }
      var b := buckets[key];
      if now > b.last {
        b := Bucket(Min(c.burst, b.tokens + Mul(Seconds(now - b.last), c.refill)), now);
      }
      if b.tokens >= 1.0 {
        buckets := buckets[key := b.(tokens := b.tokens - 1.0)];
        return true, 0;
      }
      buckets := buckets[key := b];
      return false, Wait(c, b.tokens);
    }
  }

  // ----- whole traffic

  datatype Request = Request(key: Key, now: int)

  predicate Sorted(reqs: seq<Request>, start: int) {
    && (reqs != [] ==> start <= reqs[0].now)
    && forall i :: 0 <= i < |reqs| - 1 ==> reqs[i].now <= reqs[i + 1].now
  }

  function Answers(c: Config, s: Memory, reqs: seq<Request>): (r: seq<Answer>)
    ensures |r| == |reqs|
    decreases |reqs|
  {
    if reqs == [] then []
    else
      var (s', a) := Allowed(c, s, reqs[0].key, reqs[0].now);
      [a] + Answers(c, s', reqs[1..])
  }

  function SimpleAnswers(c: Config, m: Table, reqs: seq<Request>): (r: seq<Answer>)
    ensures |r| == |reqs|
    decreases |reqs|
  {
    if reqs == [] then []
    else
      var (m', a) := Unswept(c, m, reqs[0].key, reqs[0].now);
      [a] + SimpleAnswers(c, m', reqs[1..])
  }

  /** Buckets under a clock that has reached `now`. */
  ghost predicate Calm(c: Config, m: Table, now: int) {
    forall k :: k in m ==> m[k].last <= now && 0.0 <= m[k].tokens <= c.burst
  }

  /** The swept table is the other one with some idle buckets missing. */
  ghost predicate Agree(c: Config, swept: Table, m: Table, now: int) {
    && (forall k :: k in swept ==> k in m && m[k] == swept[k])
    && (forall k :: k in m && k !in swept ==> Idle(c, m[k], now))
  }

  lemma Grows(c: Config, a: int, b: int)
    requires Proper(c) && a <= b
    ensures Mul(Seconds(a), c.refill) <= Mul(Seconds(b), c.refill)
    ensures a == 0 ==> Mul(Seconds(a), c.refill) == 0.0
  {
    hide Mul;
    MulMono(Seconds(a), Seconds(b), c.refill);
    MulUnits(c.refill);
  }

  lemma Elapses(c: Config, a: int, b: int)
    ensures Mul(Seconds(a + b), c.refill) == Mul(Seconds(a), c.refill) + Mul(Seconds(b), c.refill)
  {
    hide Mul;
    assert Seconds(a + b) == Seconds(a) + Seconds(b);
    MulAdd(c.refill, Seconds(a), Seconds(b));
  }

  lemma IdleStays(c: Config, b: Bucket, now: int, later: int)
    requires Proper(c) && now <= later && Idle(c, b, now)
    ensures Idle(c, b, later)
  {
    hide Mul, Seconds;
    Grows(c, now - b.last, later - b.last);
  }

  /** An idle bucket shows exactly a fresh one. */
  lemma IdleIsFull(c: Config, b: Bucket, now: int)
    requires Proper(c) && b.last <= now && b.tokens <= c.burst && Idle(c, b, now)
    ensures Filled(c, b, now) == c.burst
  {
    hide Mul, Seconds;
    Grows(c, 0, now - b.last);
  }

  lemma FilledInRange(c: Config, b: Bucket, now: int)
    requires Proper(c) && 0.0 <= b.tokens <= c.burst
    ensures 0.0 <= Filled(c, b, now) <= c.burst
  {
    hide Mul, Seconds;
    if now > b.last {
      Grows(c, 0, now - b.last);
    }
  }

  lemma UnsweptCalm(c: Config, m: Table, key: Key, now: int, earlier: int)
    requires Proper(c) && Calm(c, m, earlier) && earlier <= now
    ensures Calm(c, Unswept(c, m, key, now).0, now)
  {
    hide Wait, Filled;
    if key in m {
      FilledInRange(c, m[key], now);
    }
  }

  /** One request: the sweep before it changes neither the answer nor the agreement. */
  lemma AgreeStep(c: Config, s: Memory, m: Table, key: Key, now: int, earlier: int)
    requires Proper(c) && Calm(c, m, earlier) && earlier <= now && Agree(c, s.buckets, m, earlier)
    ensures var (s', a) := Allowed(c, s, key, now);
      var (m', a') := Unswept(c, m, key, now);
      a == a' && Agree(c, s'.buckets, m', now)
  {
    SweepAgrees(c, s, m, now, earlier);
    var s1 := Swept(c, s, now);
    hide Swept, Idle, Filled, Wait;
    if key in m && key !in s1.buckets {
      IdleIsFull(c, m[key], now);
    }
  }

  lemma SweepAgrees(c: Config, s: Memory, m: Table, now: int, earlier: int)
    requires Proper(c) && earlier <= now && Agree(c, s.buckets, m, earlier)
    ensures Agree(c, Swept(c, s, now).buckets, m, now)
  {
    hide Idle;
    forall k | k in m && k !in s.buckets
      ensures Idle(c, m[k], now)
    {
      IdleStays(c, m[k], earlier, now);
    }
  }

  lemma {:induction false} AnswersAgree(c: Config, s: Memory, m: Table, reqs: seq<Request>, now: int)
    requires Proper(c) && Calm(c, m, now) && Agree(c, s.buckets, m, now) && Sorted(reqs, now)
    ensures Answers(c, s, reqs) == SimpleAnswers(c, m, reqs)
    decreases |reqs|
  {
    hide Calm, Agree, Allowed, Unswept;
    if reqs != [] {
      var r := reqs[0];
      AgreeStep(c, s, m, r.key, r.now, now);
      UnsweptCalm(c, m, r.key, r.now, now);
      assert forall i :: 0 <= i < |reqs[1..]| ==> reqs[1..][i] == reqs[i + 1];
      AnswersAgree(c, Allowed(c, s, r.key, r.now).0, Unswept(c, m, r.key, r.now).0, reqs[1..], r.now);
    }
  }

  /** The lazily swept limiter gives the same answers as one that never forgets. */
  lemma SweepingIsInvisible(c: Config, reqs: seq<Request>, start: int)
    requires Proper(c) && Sorted(reqs, start)
    ensures Answers(c, Memory(map[], None), reqs) == SimpleAnswers(c, map[], reqs)
  {
    AnswersAgree(c, Memory(map[], None), map[], reqs, start);
  }

  // ----- how many requests get through

  function Granted(reqs: seq<Request>, answers: seq<Answer>, key: Key): nat
    requires |reqs| == |answers|
  {
    if reqs == [] then 0
    else (if reqs[0].key == key && answers[0].ok then 1 else 0) + Granted(reqs[1..], answers[1..], key)
  }

  /** Tokens appear no faster than they are refilled. */
  lemma LevelGrows(c: Config, m: Table, key: Key, now: int, later: int)
    requires Proper(c) && Calm(c, m, now) && now <= later
    ensures Level(c, m, key, later) <= Level(c, m, key, now) + Mul(Seconds(later - now), c.refill)
    ensures 0.0 <= Level(c, m, key, later) <= c.burst
  {
    hide Mul, Seconds;
    Grows(c, 0, later - now);
    if key in m {
      var b := m[key];
      FilledInRange(c, b, later);
      Elapses(c, now - b.last, later - now);
      Grows(c, 0, now - b.last);
    }
  }

  /** The level right after a request is what the request left. */
  lemma LevelAfter(c: Config, m: Table, asked: Key, key: Key, now: int)
    requires Calm(c, m, now)
    ensures var (m', a) := Unswept(c, m, asked, now);
      Level(c, m', key, now) == Level(c, m, key, now) - (if asked == key && a.ok then 1.0 else 0.0)
  {
    hide Wait, Mul;
  }

  lemma {:induction false} Conservation(c: Config, m: Table, reqs: seq<Request>, key: Key, now: int)
    requires Proper(c) && Calm(c, m, now) && Sorted(reqs, now) && reqs != []
    ensures Granted(reqs, SimpleAnswers(c, m, reqs), key) as real
         <= Level(c, m, key, now) + Mul(Seconds(reqs[|reqs| - 1].now - now), c.refill)
    decreases |reqs|
  {
    var r := reqs[0];
    var (m', a) := Unswept(c, m, r.key, r.now);
    UnsweptCalm(c, m, r.key, r.now, now);
    LevelGrows(c, m, key, now, r.now);
    CalmLater(c, m, now, r.now);
    LevelAfter(c, m, r.key, key, r.now);
    LevelGrows(c, m', key, r.now, r.now);
    hide Calm, Unswept, Level, Mul, Seconds;
    if |reqs| > 1 {
      assert forall i :: 0 <= i < |reqs[1..]| ==> reqs[1..][i] == reqs[i + 1];
      Conservation(c, m', reqs[1..], key, r.now);
      Elapses(c, r.now - now, reqs[|reqs| - 1].now - r.now);
    } else {
      OneAnswer(c, m, reqs, key);
    }
  }

  lemma CalmLater(c: Config, m: Table, now: int, later: int)
    requires Calm(c, m, now) && now <= later
    ensures Calm(c, m, later)
  {
  }

  lemma OneAnswer(c: Config, m: Table, reqs: seq<Request>, key: Key)
    requires |reqs| == 1
    ensures Granted(reqs, SimpleAnswers(c, m, reqs), key)
         == if reqs[0].key == key && Unswept(c, m, reqs[0].key, reqs[0].now).1.ok then 1 else 0
  {
    hide Unswept;
  }

  /** The table after some requests. */
  function TableAfter(c: Config, m: Table, reqs: seq<Request>): Table
    decreases |reqs|
  {
    if reqs == [] then m else TableAfter(c, Unswept(c, m, reqs[0].key, reqs[0].now).0, reqs[1..])
  }

  lemma {:induction false} AnswersAfter(c: Config, m: Table, before: seq<Request>, window: seq<Request>)
    ensures SimpleAnswers(c, m, before + window)[|before|..] == SimpleAnswers(c, TableAfter(c, m, before), window)
    decreases |before|
  {
    hide Unswept;
    if before == [] {
      assert before + window == window;
    } else {
      assert (before + window)[1..] == before[1..] + window;
      AnswersAfter(c, Unswept(c, m, before[0].key, before[0].now).0, before[1..], window);
    }
  }

  lemma {:induction false} TableCalm(c: Config, m: Table, before: seq<Request>, window: seq<Request>, start: int)
    requires Proper(c) && Calm(c, m, start) && Sorted(before + window, start) && window != []
    ensures Calm(c, TableAfter(c, m, before), window[0].now) && Sorted(window, window[0].now)
    decreases |before|
  {
    if before == [] {
      assert before + window == window;
    } else {
      var all := before + window;
      var r := before[0];
      UnsweptCalm(c, m, r.key, r.now, start);
      assert all[1..] == before[1..] + window;
      assert forall i :: 0 <= i < |all[1..]| ==> all[1..][i] == all[i + 1];
      assert all[0] == r;
      hide Unswept, Calm;
      TableCalm(c, Unswept(c, m, r.key, r.now).0, before[1..], window, r.now);
    }
  }

  /** Over any window of any traffic, a key gets at most its burst and what is refilled
      between the window's first and last request. */
  lemma WindowBound(c: Config, before: seq<Request>, window: seq<Request>, key: Key, start: int)
    requires Proper(c) && Sorted(before + window, start) && window != []
    ensures Granted(window, Answers(c, Memory(map[], None), before + window)[|before|..], key) as real
         <= c.burst + Mul(Seconds(window[|window| - 1].now - window[0].now), c.refill)
  {
    SweepingIsInvisible(c, before + window, start);
    AnswersAfter(c, map[], before, window);
    TableCalm(c, map[], before, window, start);
    var m := TableAfter(c, map[], before);
    Conservation(c, m, window, key, window[0].now);
    LevelGrows(c, m, key, window[0].now, window[0].now);
  }

  // ----- retrying

  /** The exact time, in nanoseconds, until one whole token. */
  function ExactWait(c: Config, tokens: real): real {
    Mul(Quot(1.0 - tokens, c.refill), SECOND as real)
  }

  /** A key denied at `now` and left alone is served again exactly from the exact wait on. */
  lemma RetryIff(c: Config, m: Table, key: Key, now: int, d: nat)
    requires Proper(c) && key in m && m[key].last <= now && !Unswept(c, m, key, now).1.ok
    ensures var tokens := Level(c, m, key, now);
      Unswept(c, Unswept(c, m, key, now).0, key, now + d).1.ok <==> d as real >= ExactWait(c, tokens)
  {
    var tokens := Level(c, m, key, now);
    TokensBy(c, tokens, d);
    hide Mul, Quot, Wait;
  }

  /** One token is there after `d` exactly when `d` has reached the exact wait. */
  lemma TokensBy(c: Config, tokens: real, d: nat)
    requires Proper(c) && tokens < 1.0
    ensures tokens + Mul(Seconds(d), c.refill) >= 1.0 <==> d as real >= ExactWait(c, tokens)
    ensures d == 0 ==> ExactWait(c, tokens) > 0.0
  {
    var (need, n, r) := (1.0 - tokens, SECOND as real, c.refill);
    var q := need / r;
    DivMul(need, r);
    MulPos(need, 1.0 / r) by {
      assert 1.0 / r > 0.0;
    }
    assert q > 0.0 by {
      if q <= 0.0 {
        MulMono(q, 0.0, r);
        MulUnits(r);
      }
    }
    hide Mul;
    MulPos(q, n);
    assert Seconds(d) == d as real / n;
    DivMul(d as real, n);
    if Seconds(d) >= q {
      MulMono(q, Seconds(d), r);
      MulMono(q, Seconds(d), n);
    } else {
      MulStrict(Seconds(d), q, r);
      MulStrict(Seconds(d), q, n);
    }
  }

  /** The wait a denied caller is told: any sooner is too soon, a nanosecond more is always
      enough, and at the told moment itself the retry succeeds exactly when no fraction of
      a nanosecond was dropped. */
  lemma ToldWait(c: Config, m: Table, key: Key, now: int, d: nat)
    requires Proper(c) && key in m && m[key].last <= now && !Unswept(c, m, key, now).1.ok
    ensures var (m', a) := Unswept(c, m, key, now);
      var again := Unswept(c, m', key, now + d).1.ok;
      && (d < a.wait ==> !again) && (d > a.wait ==> again)
      && (d == a.wait ==> (again <==> ExactWait(c, Level(c, m, key, now)) == a.wait as real))
  {
    RetryIff(c, m, key, now, d);
    var tokens := Level(c, m, key, now);
    TokensBy(c, tokens, 0);
    hide Level, Mul, Quot;
  }

  /** Three requests a second: the fourth at once is told to wait 333333333 ns, and a retry
      at that very moment is denied, a third of a nanosecond early. */
  lemma ToldTooEarly()
    ensures var c := Configure(3, SECOND).value;
      var m1 := Unswept(c, map[], "k", 0).0;
      var m2 := Unswept(c, m1, "k", 0).0;
      var m3 := Unswept(c, m2, "k", 0).0;
      var (m4, a) := Unswept(c, m3, "k", 0);
      Proper(c) && a == Answer(false, 333_333_333) && !Unswept(c, m4, "k", a.wait).1.ok
  {
    var c := Configure(3, SECOND).value;
    var m1 := Unswept(c, map[], "k", 0).0;
    assert m1 == map["k" := Bucket(2.0, 0)];
    var m2 := Unswept(c, m1, "k", 0).0;
    assert m2 == map["k" := Bucket(1.0, 0)];
    var m3 := Unswept(c, m2, "k", 0).0;
    assert m3 == map["k" := Bucket(0.0, 0)];
  }
}
