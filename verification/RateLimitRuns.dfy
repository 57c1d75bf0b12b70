/**
 Which calls of a run the limiter of `RateLimit` admits, told by the calls alone: the times
 of the calls and the verdicts before.
 */
module RateLimitRuns {
  import opened RateLimit

  /// ### Runs and counts, split

  lemma {:induction false} RunKeptSplits(c: Config, m: Memory, a: seq<Call>, b: seq<Call>)
    ensures
      var first := RunKept(c, m, a);
      var later := RunKept(c, first.0, b);
      RunKept(c, m, a + b) == (later.0, first.1 + later.1) && |first.1| == |a|
    decreases |a|
  {
    if a == [] {
      assert a + b == b;
      assert [] + RunKept(c, m, b).1 == RunKept(c, m, b).1;
    } else {
      assert (a + b)[0] == a[0] && (a + b)[1..] == a[1..] + b;
      var next := AllowKept(c, m, a[0].at, a[0].key);
      RunKeptSplits(c, next.0, a[1..], b);
      var rest := RunKept(c, next.0, a[1..]);
      var last := RunKept(c, rest.0, b);
      assert [next.1] + (rest.1 + last.1) == ([next.1] + rest.1) + last.1;
    }
  }

  lemma {:induction false} AcceptedLast(calls: seq<Call>, verdicts: seq<bool>, key: string)
    requires |calls| == |verdicts| > 0
    ensures
      var n := |calls| - 1;
      Accepted(calls, verdicts, key) ==
        Accepted(calls[..n], verdicts[..n], key) + if calls[n].key == key && verdicts[n] then 1 else 0
    decreases |calls|
  {
    var n := |calls| - 1;
    if n > 0 {
      AcceptedLast(calls[1..], verdicts[1..], key);
      assert calls[1..][..n - 1] == calls[..n][1..] && verdicts[1..][..n - 1] == verdicts[..n][1..];
    }
  }

  lemma {:induction false} AcceptedSuffix(calls: seq<Call>, verdicts: seq<bool>, key: string, j: nat)
    requires |calls| == |verdicts| && j <= |calls|
    ensures Accepted(calls[j..], verdicts[j..], key) <= Accepted(calls, verdicts, key)
  {
    if j > 0 {
      AcceptedSuffix(calls[1..], verdicts[1..], key, j - 1);
      assert calls[1..][j - 1..] == calls[j..] && verdicts[1..][j - 1..] == verdicts[j..];
    } else {
      assert calls[0..] == calls && verdicts[0..] == verdicts;
    }
  }

  /// ### Where a bucket was last full

  // The bucket was full at call `j` and has lost since then what the key was admitted.
  ghost predicate FullAt(c: Config, b: Bucket, calls: seq<Call>, verdicts: seq<bool>, key: string, j: int) {
    && |calls| == |verdicts| && 0 <= j < |calls|
    && b.tokens == c.burst as real + c.Gain(b.last - calls[j].at) - Accepted(calls[j..], verdicts[j..], key) as real
  }

  ghost predicate Explained(c: Config, m: Memory, calls: seq<Call>, verdicts: seq<bool>) {
    forall key :: key in m ==> exists j :: FullAt(c, m[key], calls, verdicts, key, j)
  }

  lemma CallAppends(calls: seq<Call>, verdicts: seq<bool>, call: Call, verdict: bool, key: string, j: nat)
    requires |calls| == |verdicts| && j <= |calls|
    ensures Accepted((calls + [call])[j..], (verdicts + [verdict])[j..], key) ==
      Accepted(calls[j..], verdicts[j..], key) + if call.key == key && verdict then 1 else 0
  {
    var more, said := (calls + [call])[j..], (verdicts + [verdict])[j..];
    assert more == calls[j..] + [call] && said == verdicts[j..] + [verdict];
    AcceptedLast(more, said, key);
    assert more[..|more| - 1] == calls[j..] && said[..|said| - 1] == verdicts[j..];
  }

  predicate Brimming(c: Config, b: Bucket, now: int) {
    b.tokens + c.Gain(now - b.last) >= c.burst as real
  }

  lemma TakeFromFull(c: Config, b: Bucket, now: int)
    requires Brimming(c, b, now)
    ensures Take(c, b, now) ==
      if c.burst == 0 then (b, false) else (Bucket(c.burst as real - 1.0, now), true)
  {
  }

  lemma TakeSince(c: Config, b: Bucket, now: int, at: int, spent: nat)
    requires !Brimming(c, b, now) && b.tokens == c.burst as real + c.Gain(b.last - at) - spent as real
    ensures
      var level := c.burst as real + c.Gain(now - at) - spent as real;
      Take(c, b, now) == if level < 1.0 then (b, false) else (Bucket(level - 1.0, now), true)
  {
    GainAdds(c, b.last - at, now - b.last);
  }

  // The bucket that was full at a call before, after one more call.
  lemma FullStays(c: Config, b: Bucket, calls: seq<Call>, verdicts: seq<bool>, key: string, i: nat, call: Call,
                  verdict: bool)
    requires FullAt(c, b, calls, verdicts, key, i) && !(call.key == key && verdict)
    ensures FullAt(c, b, calls + [call], verdicts + [verdict], key, i)
  {
    CallAppends(calls, verdicts, call, verdict, key, i);
    assert (calls + [call])[i] == calls[i];
  }

  lemma FullSpent(c: Config, b: Bucket, calls: seq<Call>, verdicts: seq<bool>, i: nat, call: Call, level: real)
    requires FullAt(c, b, calls, verdicts, call.key, i)
    requires level ==
      c.burst as real + c.Gain(call.at - calls[i].at) - Accepted(calls[i..], verdicts[i..], call.key) as real
    ensures FullAt(c, Bucket(level - 1.0, call.at), calls + [call], verdicts + [true], call.key, i)
  {
    CallAppends(calls, verdicts, call, true, call.key, i);
    assert (calls + [call])[i] == calls[i];
  }

  lemma FullNow(c: Config, calls: seq<Call>, verdicts: seq<bool>, call: Call, verdict: bool)
    requires |calls| == |verdicts|
    ensures FullAt(c, Bucket(c.burst as real - if verdict then 1.0 else 0.0, call.at), calls + [call],
                   verdicts + [verdict], call.key, |calls|)
  {
    CallAppends(calls, verdicts, call, verdict, call.key, |calls|);
    assert (calls + [call])[|calls|] == call;
    assert c.Gain(0) == 0.0;
  }

  // How a verdict reads when the bucket was full at call `j` (which may be this one).
  ghost predicate TellsFrom(c: Config, calls: seq<Call>, verdicts: seq<bool>, call: Call, verdict: bool, j: nat) {
    && |calls| == |verdicts| && j <= |calls|
    && var since := if j < |calls| then calls[j].at else call.at;
       var spent := Accepted(calls[j..], verdicts[j..], call.key);
       verdict <==> spent as real + 1.0 <= c.burst as real + c.Gain(call.at - since)
  }

  lemma FirstCall(c: Config, m: Memory, calls: seq<Call>, verdicts: seq<bool>, call: Call)
    requires |calls| == |verdicts| && call.key !in m
    ensures
      var next := AllowKept(c, m, call.at, call.key);
      && TellsFrom(c, calls, verdicts, call, next.1, |calls|)
      && FullAt(c, next.0[call.key], calls + [call], verdicts + [next.1], call.key, |calls|)
  {
    assert c.Gain(0) == 0.0;
    TakeFromFull(c, Full(c, call.at), call.at);
    FullNow(c, calls, verdicts, call, AllowKept(c, m, call.at, call.key).1);
  }

  lemma LaterCall(c: Config, m: Memory, calls: seq<Call>, verdicts: seq<bool>, call: Call, i: nat)
    requires call.key in m && FullAt(c, m[call.key], calls, verdicts, call.key, i)
    ensures
      var next := AllowKept(c, m, call.at, call.key);
      && (TellsFrom(c, calls, verdicts, call, next.1, i) || TellsFrom(c, calls, verdicts, call, next.1, |calls|))
      && (FullAt(c, next.0[call.key], calls + [call], verdicts + [next.1], call.key, i)
          || FullAt(c, next.0[call.key], calls + [call], verdicts + [next.1], call.key, |calls|))
  {
    var b, next := m[call.key], AllowKept(c, m, call.at, call.key);
    var spent := Accepted(calls[i..], verdicts[i..], call.key);
    if !next.1 { FullStays(c, b, calls, verdicts, call.key, i, call, false); }
    if Brimming(c, b, call.at) {
      TakeFromFull(c, b, call.at);
      assert c.Gain(0) == 0.0;
      FullNow(c, calls, verdicts, call, next.1);
    } else {
      TakeSince(c, b, call.at, calls[i].at, spent);
      var level := c.burst as real + c.Gain(call.at - calls[i].at) - spent as real;
      FullSpent(c, b, calls, verdicts, i, call, level);
    }
  }

  lemma KeyExplained(c: Config, m: Memory, calls: seq<Call>, verdicts: seq<bool>, call: Call)
    requires |calls| == |verdicts| && Explained(c, m, calls, verdicts)
    ensures
      var next := AllowKept(c, m, call.at, call.key);
      && (exists j :: TellsFrom(c, calls, verdicts, call, next.1, j))
      && Explained(c, next.0, calls + [call], verdicts + [next.1])
  {
    var next := AllowKept(c, m, call.at, call.key);
    if call.key in m {
      var i :| FullAt(c, m[call.key], calls, verdicts, call.key, i);
      LaterCall(c, m, calls, verdicts, call, i);
    } else {
      FirstCall(c, m, calls, verdicts, call);
    }
    forall key | key in m && key != call.key
      ensures exists i :: FullAt(c, m[key], calls + [call], verdicts + [next.1], key, i)
    {
      var i :| FullAt(c, m[key], calls, verdicts, key, i);
      FullStays(c, m[key], calls, verdicts, key, i, call, next.1);
    }
  }

  lemma {:induction false} RunExplained(c: Config, calls: seq<Call>)
    ensures Explained(c, RunKept(c, map[], calls).0, calls, RunKept(c, map[], calls).1)
    decreases |calls|
  {
    if calls != [] {
      var before, call := calls[..|calls| - 1], calls[|calls| - 1];
      assert calls == before + [call];
      RunExplained(c, before);
      OneMoreCall(c, map[], before, call);
      KeyExplained(c, RunKept(c, map[], before).0, before, RunKept(c, map[], before).1, call);
    }
  }

  lemma OneMoreCall(c: Config, m: Memory, calls: seq<Call>, call: Call)
    ensures
      var before := RunKept(c, m, calls);
      var next := AllowKept(c, before.0, call.at, call.key);
      RunKept(c, m, calls + [call]) == (next.0, before.1 + [next.1]) && |before.1| == |calls|
  {
    RunKeptSplits(c, m, calls, [call]);
    var next := AllowKept(c, RunKept(c, m, calls).0, call.at, call.key);
    assert RunKept(c, next.0, []) == (next.0, []);
    assert [next.1] + [] == [next.1];
  }

  /// ### Which calls are admitted

  // Counting from call `j`, there is a whole token left for call `i`.
  ghost predicate RoomSince(c: Config, calls: seq<Call>, verdicts: seq<bool>, i: nat, j: nat)
    requires j <= i < |calls| == |verdicts|
  {
    Accepted(calls[j..i], verdicts[j..i], calls[i].key) as real + 1.0 <=
      c.burst as real + c.rate * ((calls[i].at - calls[j].at) as real / 1_000_000_000.0)
  }

  lemma {:induction false} KeptStaysHealthy(c: Config, m: Memory, calls: seq<Call>, from: int, until: int)
    requires c.Valid() && InOrder(from, calls) && Healthy(m, from) && from <= until
    requires forall i :: 0 <= i < |calls| ==> calls[i].at <= until
    ensures Healthy(RunKept(c, m, calls).0, until)
    decreases |calls|
  {
    if calls != [] {
      var call := calls[0];
      KeptCall(c, m, call, from, call.key);
      KeptStaysHealthy(c, AllowKept(c, m, call.at, call.key).0, calls[1..], call.at, until);
    }
  }

  lemma PrefixVerdicts(c: Config, calls: seq<Call>, n: nat)
    requires n <= |calls|
    ensures
      var all := RunKept(c, map[], calls).1;
      |all| == |calls| && RunKept(c, map[], calls[..n]).1 == all[..n]
  {
    assert calls == calls[..n] + calls[n..];
    RunKeptSplits(c, map[], calls[..n], calls[n..]);
    RunKeptSplits(c, RunKept(c, map[], calls[..n]).0, calls[n..], []);
    assert calls[n..] + [] == calls[n..];
  }

  lemma StretchVerdicts(c: Config, calls: seq<Call>, j: nat, n: nat)
    requires j <= n <= |calls|
    ensures
      var all := RunKept(c, map[], calls).1;
      |all| == |calls| && RunKept(c, RunKept(c, map[], calls[..j]).0, calls[j..n]).1 == all[j..n]
  {
    assert calls[..n] == calls[..j] + calls[j..n];
    PrefixVerdicts(c, calls, n);
    RunKeptSplits(c, map[], calls[..j], calls[j..n]);
    var all := RunKept(c, map[], calls).1;
    assert all[..n][j..] == all[j..n];
  }

  lemma VerdictOf(c: Config, calls: seq<Call>, i: nat)
    requires i < |calls|
    ensures
      var all := RunKept(c, map[], calls).1;
      |all| == |calls| && AllowKept(c, RunKept(c, map[], calls[..i]).0, calls[i].at, calls[i].key).1 == all[i]
  {
    assert calls[..i + 1] == calls[..i] + [calls[i]];
    PrefixVerdicts(c, calls, i + 1);
    OneMoreCall(c, map[], calls[..i], calls[i]);
    assert RunKept(c, map[], calls).1[..i + 1][i] == RunKept(c, map[], calls).1[i];
  }

  // What a stretch was admitted before its last call.
  lemma RefusedWithoutRoom(c: Config, calls: seq<Call>, all: seq<bool>, i: nat, j: nat)
    requires i < |calls| == |all| && j <= i && TellsFrom(c, calls[..i], all[..i], calls[i], false, j)
    ensures !RoomSince(c, calls, all, i, j)
  {
    assert calls[..i][j..] == calls[j..i] && all[..i][j..] == all[j..i];
  }

  lemma KeptRefuses(c: Config, calls: seq<Call>, all: seq<bool>, i: nat)
    requires i < |calls| == |all| && all == RunKept(c, map[], calls).1 && !all[i]
    ensures exists j :: 0 <= j <= i && !RoomSince(c, calls, all, i, j)
  {
    PrefixVerdicts(c, calls, i);
    VerdictOf(c, calls, i);
    RunExplained(c, calls[..i]);
    KeyExplained(c, RunKept(c, map[], calls[..i]).0, calls[..i], all[..i], calls[i]);
    var j: nat :| TellsFrom(c, calls[..i], all[..i], calls[i], false, j);
    RefusedWithoutRoom(c, calls, all, i, j);
  }

  lemma StretchOrder(calls: seq<Call>, start: int, j: nat, i: nat, before: seq<Call>, window: seq<Call>)
    requires InOrder(start, calls) && j <= i < |calls| && before == calls[..j] && window == calls[j..i + 1]
    ensures InOrder(start, before) && InOrder(calls[j].at, window) && start <= calls[j].at <= calls[i].at
    ensures forall k :: 0 <= k < |before| ==> before[k].at <= calls[j].at
    ensures forall k :: 0 <= k < |window| ==> window[k].at <= calls[i].at
  {
    forall k | 0 <= k < |window| ensures window[k] == calls[j + k] {}
  }

  lemma StretchBound(c: Config, calls: seq<Call>, all: seq<bool>, start: int, i: nat, j: nat, key: string)
    requires c.Valid() && InOrder(start, calls) && j <= i < |calls| == |all| && all == RunKept(c, map[], calls).1
    ensures Accepted(calls[j..i + 1], all[j..i + 1], key) as real <=
      c.burst as real + c.Gain(calls[i].at - calls[j].at)
  {
    var before, window := calls[..j], calls[j..i + 1];
    StretchOrder(calls, start, j, i, before, window);
    KeptStaysHealthy(c, map[], before, start, calls[j].at);
    StretchVerdicts(c, calls, j, i + 1);
    KeptWindow(c, RunKept(c, map[], before).0, window, calls[j].at, calls[i].at, key);
  }

  lemma LastAdmitted(calls: seq<Call>, all: seq<bool>, i: nat, j: nat)
    requires j <= i < |calls| == |all| && all[i]
    ensures Accepted(calls[j..i + 1], all[j..i + 1], calls[i].key) == Accepted(calls[j..i], all[j..i], calls[i].key) + 1
  {
    var window, verdicts := calls[j..i + 1], all[j..i + 1];
    AcceptedLast(window, verdicts, calls[i].key);
    assert window[..i - j] == calls[j..i] && verdicts[..i - j] == all[j..i];
  }

  lemma BoundLeavesRoom(c: Config, calls: seq<Call>, all: seq<bool>, i: nat, j: nat, count: nat)
    requires j <= i < |calls| == |all| && count == Accepted(calls[j..i], all[j..i], calls[i].key)
    requires (count + 1) as real <= c.burst as real + c.Gain(calls[i].at - calls[j].at)
    ensures RoomSince(c, calls, all, i, j)
  {
    assert (count + 1) as real == count as real + 1.0;
  }

  lemma KeptAdmits(c: Config, calls: seq<Call>, all: seq<bool>, start: int, i: nat, j: nat)
    requires c.Valid() && InOrder(start, calls) && j <= i < |calls| == |all|
    requires all == RunKept(c, map[], calls).1 && all[i]
    ensures RoomSince(c, calls, all, i, j)
  {
    StretchBound(c, calls, all, start, i, j, calls[i].key);
    LastAdmitted(calls, all, i, j);
    BoundLeavesRoom(c, calls, all, i, j, Accepted(calls[j..i], all[j..i], calls[i].key));
  }

  // In any run from the start, a call is admitted exactly when, counting from each call up to
  // this one, the key's admissions and one more stay within burst + rate * time.
  lemma AdmittedExactly(c: Config, calls: seq<Call>, start: int, i: nat)
    requires c.Valid() && InOrder(start, calls) && i < |calls|
    ensures
      var verdicts := Run(c, Limiter(map[], start), calls).1;
      && |verdicts| == |calls|
      && (verdicts[i] <==> forall j :: 0 <= j <= i ==> RoomSince(c, calls, verdicts, i, j))
  {
    RunLength(c, Limiter(map[], start), calls);
    SweepingIsInvisible(c, Limiter(map[], start), map[], calls, start);
    if RunKept(c, map[], calls).1[i] {
      forall j | 0 <= j <= i ensures RoomSince(c, calls, RunKept(c, map[], calls).1, i, j) {
        KeptAdmits(c, calls, RunKept(c, map[], calls).1, start, i, j);
      }
    } else {
      KeptRefuses(c, calls, RunKept(c, map[], calls).1, i);
    }
  }

  // No key is refused before it has had its burst.
  lemma BurstIsAdmitted(c: Config, calls: seq<Call>, start: int, i: nat)
    requires c.Valid() && InOrder(start, calls) && i < |calls|
    ensures
      var verdicts := Run(c, Limiter(map[], start), calls).1;
      && |verdicts| == |calls|
      && (Accepted(calls[..i], verdicts[..i], calls[i].key) < c.burst ==> verdicts[i])
  {
    var verdicts := Run(c, Limiter(map[], start), calls).1;
    AdmittedExactly(c, calls, start, i);
    forall j | 0 <= j <= i && Accepted(calls[..i], verdicts[..i], calls[i].key) < c.burst
      ensures RoomSince(c, calls, verdicts, i, j)
    {
      assert calls[..i][j..] == calls[j..i] && verdicts[..i][j..] == verdicts[j..i];
      AcceptedSuffix(calls[..i], verdicts[..i], calls[i].key, j);
      GainNonNegative(c, calls[i].at - calls[j].at);
    }
  }

  /// ### What is remembered

  // At `now` the last sweep is less than a minute old, and nobody was kept in it who had been
  // idle for longer than ten minutes and than a full refill takes.
  ghost predicate Bounded(c: Config, l: Limiter, now: int)
    requires c.Valid()
  {
    var refill := (1_000_000_000.0 * c.burst as real / c.rate).Floor;
    && l.lastSweep <= now < l.lastSweep + 60_000_000_000
    && forall key :: key in l.visitors ==>
         l.visitors[key].lastSeen >= l.lastSweep - 600_000_000_000 || l.visitors[key].lastSeen >= l.lastSweep - refill
  }

  // Exactly who is forgotten: at most once a minute, a key idle for more than ten minutes and
  // for more than its refill takes.
  lemma SweepForgetsExactly(c: Config, l: Limiter, now: int, key: string)
    requires c.Valid() && key in l.visitors
    ensures
      var after, idle := Sweep(c, l, now), now - l.visitors[key].lastSeen;
      && (key !in after.visitors <==>
            now - l.lastSweep >= 60_000_000_000 && idle > 600_000_000_000
            && idle > (1_000_000_000.0 * c.burst as real / c.rate).Floor)
      && (key in after.visitors ==> after.visitors[key] == l.visitors[key])
      && after.lastSweep == if now - l.lastSweep >= 60_000_000_000 then now else l.lastSweep
  {
  }

  lemma CallIsBounded(c: Config, l: Limiter, from: int, call: Call)
    requires c.Valid() && Bounded(c, l, from) && from <= call.at
    ensures Bounded(c, Allow(c, l, call.at, call.key).0, call.at)
    ensures var after := Allow(c, l, call.at, call.key).0;
      call.key in after.visitors && after.visitors[call.key].lastSeen == call.at
  {
  }

  // The memory stays bounded by the keys seen recently, after every run.
  lemma {:induction false} RunIsBounded(c: Config, l: Limiter, calls: seq<Call>, from: int)
    requires c.Valid() && Bounded(c, l, from) && InOrder(from, calls)
    ensures Bounded(c, Run(c, l, calls).0, if calls == [] then from else calls[|calls| - 1].at)
    decreases |calls|
  {
    if calls != [] {
      var call := calls[0];
      CallIsBounded(c, l, from, call);
      assert InOrder(call.at, calls[1..]);
      RunIsBounded(c, Allow(c, l, call.at, call.key).0, calls[1..], call.at);
      if |calls| > 1 { assert calls[1..][|calls[1..]| - 1] == calls[|calls| - 1]; }
    }
  }
}
