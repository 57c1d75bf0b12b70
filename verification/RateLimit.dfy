/**
 The per-key rate limiter. Each key has a token bucket; keys idle for longer than
 `MaxIdle` are swept. Token buckets are those of golang.org/x/time/rate over the reals,
 times are whole nanoseconds, and one Allow call is one step.
 */
module RateLimit {
  const SECOND := 1_000_000_000
  const TEN_MINUTES := 600 * SECOND
  const SWEEP_EVERY := 60 * SECOND

  // `rate` is tokens per second.
  datatype Config = Config(rate: real, burst: nat) {
    predicate Valid() { rate > 0.0 }

    // time.Duration truncates the refill time to whole nanoseconds.
    function Refill(): int
      requires Valid()
    {
      (SECOND as real * burst as real / rate).Floor
    }

    function MaxIdle(): int
      requires Valid()
    {
      if Refill() > TEN_MINUTES then Refill() else TEN_MINUTES
    }

    // Tokens that accrue in `d` nanoseconds.
    function Gain(d: int): real {
      rate * (d as real / SECOND as real)
    }
  }

  datatype Bucket = Bucket(tokens: real, last: int)

  function Min(x: real, y: real): real { if x <= y then x else y }

  function Full(c: Config, now: int): Bucket { Bucket(c.burst as real, now) }

  function Level(c: Config, b: Bucket, now: int): real {
    Min(c.burst as real, b.tokens + c.Gain(now - b.last))
  }

  // Limiter.Allow: a refusal leaves the bucket as it was.
  function Take(c: Config, b: Bucket, now: int): (Bucket, bool) {
    if Level(c, b, now) >= 1.0 then (Bucket(Level(c, b, now) - 1.0, now), true) else (b, false)
  }

  /// ### The sweeping limiter

  datatype Visitor = Visitor(bucket: Bucket, lastSeen: int)

  datatype Limiter = Limiter(visitors: map<string, Visitor>, lastSweep: int)

  function Touch(c: Config, l: Limiter, now: int, key: string): Limiter {
    l.(visitors := l.visitors[key := Visitor(if key in l.visitors then l.visitors[key].bucket else Full(c, now), now)])
  }

  function Sweep(c: Config, l: Limiter, now: int): Limiter
    requires c.Valid()
  {
    if now - l.lastSweep < SWEEP_EVERY then l
    else Limiter(map key | key in l.visitors && l.visitors[key].lastSeen >= now - c.MaxIdle() :: l.visitors[key], now)
  }

  function Allow(c: Config, l: Limiter, now: int, key: string): (Limiter, bool)
    requires c.Valid()
  {
    var swept := Sweep(c, Touch(c, l, now, key), now);
    var taken := Take(c, Touch(c, l, now, key).visitors[key].bucket, now);
    (swept.(visitors := swept.visitors[key := Visitor(taken.0, now)]), taken.1)
  }

  class IPRateLimiter {
    const config: Config
    const maxIdle: int
    var visitors: map<string, Visitor>
    var lastSweep: int

    ghost predicate Valid() {
      config.Valid() && maxIdle == config.MaxIdle()
    }

    ghost function Value(): Limiter
      reads this
    {
      Limiter(visitors, lastSweep)
    }

    constructor (rate: real, burst: nat, now: int)
      requires rate > 0.0
      ensures Valid() && config == Config(rate, burst) && Value() == Limiter(map[], now)
    {
      var idle := TEN_MINUTES;
      var refill := (SECOND as real * burst as real / rate).Floor;
      if refill > idle { idle := refill; }
      config := Config(rate, burst);
      maxIdle := idle;
      visitors := map[];
      lastSweep := now;
    }

    method AllowNow(now: int, key: string) returns (ok: bool)
      requires Valid()
      modifies this
      ensures Value() == Allow(config, old(Value()), now, key).0
      ensures ok == Allow(config, old(Value()), now, key).1
    {
      if key !in visitors {
        visitors := visitors[key := Visitor(Full(config, now), now)];
      }
      visitors := visitors[key := visitors[key].(lastSeen := now)];
      assert Value() == Touch(config, old(Value()), now, key);
      ghost var touched := Value();
      SweepIdle(now);
      var bucket := visitors[key].bucket;
      var level := Level(config, bucket, now);
      ok := level >= 1.0;
      if ok {
        visitors := visitors[key := visitors[key].(bucket := Bucket(level - 1.0, now))];
      }
      assert visitors == Sweep(config, touched, now).visitors[key := Visitor(Take(config, bucket, now).0, now)];
    }

    method SweepIdle(now: int)
      requires Valid()
      modifies this
      ensures Value() == Sweep(config, old(Value()), now)
    {
      if now - lastSweep < SWEEP_EVERY { return; }
      lastSweep := now;
      var cutoff := now - maxIdle;
      visitors := map key | key in visitors && !(visitors[key].lastSeen < cutoff) :: visitors[key];
    }
  }

  /// ### The limiter that never forgets

  type Memory = map<string, Bucket>

  function Remembered(c: Config, m: Memory, now: int, key: string): Bucket {
    if key in m then m[key] else Full(c, now)
  }

  function AllowKept(c: Config, m: Memory, now: int, key: string): (Memory, bool) {
    var taken := Take(c, Remembered(c, m, now, key), now);
    (m[key := taken.0], taken.1)
  }

  datatype Call = Call(at: int, key: string)

  ghost predicate InOrder(from: int, calls: seq<Call>) {
    && (forall i :: 0 <= i < |calls| ==> from <= calls[i].at)
    && (forall i, j :: 0 <= i < j < |calls| ==> calls[i].at <= calls[j].at)
  }

  function Run(c: Config, l: Limiter, calls: seq<Call>): (Limiter, seq<bool>)
    requires c.Valid()
    decreases |calls|
  {
    if calls == [] then (l, []) else
      var first := Allow(c, l, calls[0].at, calls[0].key);
      var rest := Run(c, first.0, calls[1..]);
      (rest.0, [first.1] + rest.1)
  }

  function RunKept(c: Config, m: Memory, calls: seq<Call>): (Memory, seq<bool>)
    decreases |calls|
  {
    if calls == [] then (m, []) else
      var first := AllowKept(c, m, calls[0].at, calls[0].key);
      var rest := RunKept(c, first.0, calls[1..]);
      (rest.0, [first.1] + rest.1)
  }

  /// ### Arithmetic of refills

  lemma GainAdds(c: Config, d: int, e: int)
    ensures c.Gain(d + e) == c.Gain(d) + c.Gain(e)
  {
  }

  lemma GainNonNegative(c: Config, d: int)
    requires c.Valid() && 0 <= d
    ensures c.Gain(d) >= 0.0
  {
  }

  // An idle time of more than MaxIdle whole nanoseconds exceeds the exact refill time,
  // although MaxIdle itself was rounded down.
  lemma IdleRefills(c: Config, d: int)
    requires c.Valid() && d > c.MaxIdle()
    ensures c.Gain(d) >= c.burst as real
  {
    var exact := SECOND as real * c.burst as real / c.rate;
    assert d as real >= exact.Floor as real + 1.0 && exact < exact.Floor as real + 1.0;
    assert d as real >= exact;
    MultiplyOut(c.rate, c.burst as real, SECOND as real, d as real);
  }

  lemma MultiplyOut(rate: real, burst: real, second: real, d: real)
    requires rate > 0.0 && second > 0.0 && d >= second * burst / rate
    ensures rate * (d / second) >= burst
  {
  }

  lemma LevelAdvances(c: Config, b: Bucket, from: int, to: int)
    requires c.Valid() && from <= to
    ensures Level(c, b, to) == Min(c.burst as real, Level(c, b, from) + c.Gain(to - from))
  {
  }

  /// ### Sweeping is invisible

  ghost predicate Healthy(m: Memory, now: int) {
    forall key :: key in m ==> m[key].tokens >= 0.0 && m[key].last <= now
  }

  // The two limiters agree at `now`: a key present in both has equal levels, and a key that
  // was swept, or never came, has a full bucket in the memory, if any.
  ghost predicate Agree(c: Config, l: Limiter, m: Memory, now: int) {
    && Healthy(m, now)
    && (forall key :: key in l.visitors ==>
          && key in m && m[key].last <= l.visitors[key].lastSeen <= now
          && Level(c, l.visitors[key].bucket, now) == Level(c, m[key], now))
    && (forall key :: key in m && key !in l.visitors ==> Level(c, m[key], now) == c.burst as real)
  }

  lemma AgreeLater(c: Config, l: Limiter, m: Memory, from: int, to: int)
    requires c.Valid() && from <= to && Agree(c, l, m, from)
    ensures Agree(c, l, m, to)
  {
    forall key | key in m
      ensures Level(c, m[key], to) == Min(c.burst as real, Level(c, m[key], from) + c.Gain(to - from))
    {
      LevelAdvances(c, m[key], from, to);
    }
    forall key | key in l.visitors
      ensures Level(c, l.visitors[key].bucket, to) ==
        Min(c.burst as real, Level(c, l.visitors[key].bucket, from) + c.Gain(to - from))
    {
      LevelAdvances(c, l.visitors[key].bucket, from, to);
    }
    GainNonNegative(c, to - from);
  }

  lemma SweepAgrees(c: Config, l: Limiter, m: Memory, now: int)
    requires c.Valid() && Agree(c, l, m, now)
    ensures Agree(c, Sweep(c, l, now), m, now)
  {
    forall key | key in l.visitors && l.visitors[key].lastSeen < now - c.MaxIdle()
      ensures Level(c, m[key], now) == c.burst as real
    {
      IdleRefills(c, now - m[key].last);
    }
  }

  lemma TouchAgrees(c: Config, l: Limiter, m: Memory, now: int, key: string)
    requires c.Valid() && Agree(c, l, m, now)
    ensures Agree(c, Touch(c, l, now, key), m[key := Remembered(c, m, now, key)], now)
  {
  }

  // Equal levels give equal verdicts and stay equal.
  lemma TakeAgrees(c: Config, b: Bucket, d: Bucket, now: int)
    requires c.Valid() && Level(c, b, now) == Level(c, d, now) && d.tokens >= 0.0 && d.last <= now
    ensures Take(c, b, now).1 == Take(c, d, now).1
    ensures Level(c, Take(c, b, now).0, now) == Level(c, Take(c, d, now).0, now)
    ensures Take(c, d, now).0.tokens >= 0.0 && Take(c, d, now).0.last <= now
  {
  }

  // One call: the same verdict, and agreement afterwards.
  lemma CallAgrees(c: Config, l: Limiter, m: Memory, now: int, key: string)
    requires c.Valid() && Agree(c, l, m, now)
    ensures Allow(c, l, now, key).1 == AllowKept(c, m, now, key).1
    ensures Agree(c, Allow(c, l, now, key).0, AllowKept(c, m, now, key).0, now)
  {
    var touched := Touch(c, l, now, key);
    var known := m[key := Remembered(c, m, now, key)];
    TouchAgrees(c, l, m, now, key);
    SweepAgrees(c, touched, known, now);
    var swept := Sweep(c, touched, now);
    var b, d := touched.visitors[key].bucket, known[key];
    TakeAgrees(c, b, d, now);
    ReplaceAgrees(c, swept, known, now, key, Take(c, b, now).0, Take(c, d, now).0);
    assert known[key := Take(c, d, now).0] == AllowKept(c, m, now, key).0;
  }

  lemma ReplaceAgrees(c: Config, l: Limiter, m: Memory, now: int, key: string, b: Bucket, d: Bucket)
    requires Agree(c, l, m, now) && Level(c, b, now) == Level(c, d, now) && d.tokens >= 0.0 && d.last <= now
    ensures Agree(c, l.(visitors := l.visitors[key := Visitor(b, now)]), m[key := d], now)
  {
  }

  // For every run of calls at times that never go back, the limiter that sweeps gives the
  // same verdicts as the one that remembers every key.
  lemma {:induction false} SweepingIsInvisible(c: Config, l: Limiter, m: Memory, calls: seq<Call>, from: int)
    requires c.Valid() && Agree(c, l, m, from) && InOrder(from, calls)
    ensures Run(c, l, calls).1 == RunKept(c, m, calls).1
    ensures |calls| > 0 ==> Agree(c, Run(c, l, calls).0, RunKept(c, m, calls).0, calls[|calls| - 1].at)
    decreases |calls|
  {
    if calls != [] {
      var call := calls[0];
      AgreeLater(c, l, m, from, call.at);
      CallAgrees(c, l, m, call.at, call.key);
      assert InOrder(call.at, calls[1..]);
      SweepingIsInvisible(c, Allow(c, l, call.at, call.key).0, AllowKept(c, m, call.at, call.key).0, calls[1..],
        call.at);
      if |calls| > 1 { assert calls[1..][|calls[1..]| - 1] == calls[|calls| - 1]; }
    }
  }

  /// ### How much a window admits

  function Accepted(calls: seq<Call>, verdicts: seq<bool>, key: string): nat
    requires |calls| == |verdicts|
  {
    if calls == [] then 0
    else (if calls[0].key == key && verdicts[0] then 1 else 0) + Accepted(calls[1..], verdicts[1..], key)
  }

  lemma {:induction false} RunLength(c: Config, l: Limiter, calls: seq<Call>)
    requires c.Valid()
    ensures |Run(c, l, calls).1| == |calls|
    decreases |calls|
  {
    if calls != [] { RunLength(c, Allow(c, l, calls[0].at, calls[0].key).0, calls[1..]); }
  }

  // Time raises a level by at most the gain, and a call lowers it by what it admits.
  lemma KeptCall(c: Config, m: Memory, call: Call, from: int, key: string)
    requires c.Valid() && from <= call.at && Healthy(m, from)
    ensures
      var next := AllowKept(c, m, call.at, call.key);
      var after := Level(c, Remembered(c, next.0, call.at, key), call.at);
      && Healthy(next.0, call.at) && after >= 0.0
      && after + (if call.key == key && next.1 then 1.0 else 0.0)
           <= Level(c, Remembered(c, m, from, key), from) + c.Gain(call.at - from)
  {
    LevelAdvances(c, Remembered(c, m, from, key), from, call.at);
    GainNonNegative(c, call.at - from);
    GainNonNegative(c, from - Remembered(c, m, from, key).last);
    assert c.Gain(0) == 0.0;
  }

  lemma {:induction false} KeptWindow(c: Config, m: Memory, calls: seq<Call>, from: int, until: int, key: string)
    requires c.Valid() && InOrder(from, calls) && Healthy(m, from) && |RunKept(c, m, calls).1| == |calls|
    requires from <= until && forall i :: 0 <= i < |calls| ==> calls[i].at <= until
    ensures Accepted(calls, RunKept(c, m, calls).1, key) as real
      <= Level(c, Remembered(c, m, from, key), from) + c.Gain(until - from)
    decreases |calls|
  {
    if calls == [] {
      GainNonNegative(c, until - from);
      GainNonNegative(c, from - Remembered(c, m, from, key).last);
    } else {
      var call := calls[0];
      var next := AllowKept(c, m, call.at, call.key);
      KeptCall(c, m, call, from, key);
      GainAdds(c, call.at - from, until - call.at);
      var verdicts := RunKept(c, m, calls).1;
      var rest := RunKept(c, next.0, calls[1..]).1;
      assert verdicts == [next.1] + rest && verdicts[1..] == rest;
      KeptWindow(c, next.0, calls[1..], call.at, until, key);
    }
  }

  lemma SplitOrder(start: int, before: seq<Call>, window: seq<Call>)
    requires InOrder(start, before + window) && |window| > 0
    ensures InOrder(start, before) && InOrder(window[0].at, window) && start <= window[0].at
    ensures |before| > 0 ==> before[|before| - 1].at <= window[0].at
  {
    var calls := before + window;
    assert forall i :: 0 <= i < |before| ==> before[i] == calls[i];
    assert forall i :: 0 <= i < |window| ==> window[i] == calls[|before| + i];
  }

  // In any stretch of calls, whatever came before, a key is admitted at most burst + rate*d
  // times, where d is the time the stretch spans.
  lemma WindowBound(c: Config, before: seq<Call>, window: seq<Call>, start: int, key: string)
    requires c.Valid() && InOrder(start, before + window) && |window| > 0
    ensures
      var l := Run(c, Limiter(map[], start), before).0;
      && |Run(c, l, window).1| == |window|
      && Accepted(window, Run(c, l, window).1, key) as real
           <= c.burst as real + c.Gain(window[|window| - 1].at - window[0].at)
  {
    SplitOrder(start, before, window);
    var none: Memory := map[];
    var fresh0 := Limiter(map[], start);
    SweepingIsInvisible(c, fresh0, none, before, start);
    WindowFrom(c, Run(c, fresh0, before).0, RunKept(c, none, before).0, window,
               if |before| > 0 then before[|before| - 1].at else start, key);
  }

  lemma WindowFrom(c: Config, l: Limiter, m: Memory, window: seq<Call>, since: int, key: string)
    requires c.Valid() && Agree(c, l, m, since) && |window| > 0 && InOrder(window[0].at, window)
      && since <= window[0].at
    ensures |Run(c, l, window).1| == |window|
    ensures Accepted(window, Run(c, l, window).1, key) as real
      <= c.burst as real + c.Gain(window[|window| - 1].at - window[0].at)
  {
    AgreeLater(c, l, m, since, window[0].at);
    SweepingIsInvisible(c, l, m, window, window[0].at);
    RunLength(c, l, window);
    KeptWindow(c, m, window, window[0].at, window[|window| - 1].at, key);
  }
}
