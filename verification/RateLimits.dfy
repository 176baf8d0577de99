/**
 Fixed-window limiting, in its two forms: the per-socket flood guard kept in memory and the
 counter kept in Redis. Both start a window at its first call and count until it ends.
*/
module RateLimits {
  import opened Common

  /** A window starts with its first call, so it has seen at least one. */
  type Hits = n: nat | 1 <= n witness 1

  /** A window in progress: how many calls it has seen, and when it ends. */
  datatype Bucket = Bucket(count: Hits, resetAt: int)

  /** A call, and whether it finds its window over and starts a new one. */
  datatype Call = Call(at: int, renews: bool)

  function Hit(b: Option<Bucket>, c: Call, windowMs: int): Bucket {
    if b.None? || c.renews then Bucket(1, c.at + windowMs) else b.value.(count := b.value.count + 1)
  }

  /** The first call of a window is let through unasked; the others against the limit. */
  predicate Admits(b: Option<Bucket>, c: Call, limit: int) {
    b.None? || c.renews || b.value.count + 1 <= limit
  }

  /** A window is only ever replaced once its end has come. */
  predicate Timely(b: Option<Bucket>, c: Call) { c.renews && b.Some? ==> b.value.resetAt <= c.at }

  predicate IsDue(b: Option<Bucket>, now: int) { b.Some? && b.value.resetAt <= now }

  /** The flood guard of one socket: one bucket per event name, replaced as soon as it is due. */
  class FloodGuard {
    var buckets: map<string, Bucket>

    ghost function Of(event: string): Option<Bucket>
      reads this
    {
      if event in buckets then Some(buckets[event]) else None
    }

    constructor ()
      ensures buckets == map[]
    {
      buckets := map[];
    }

    method Allow(event: string, limit: int, windowMs: int, now: int) returns (ok: bool)
      modifies this
      ensures var b := old(Of(event));
        var call := Call(now, IsDue(b, now));
        Timely(b, call) && ok == Admits(b, call, limit) && buckets == old(buckets)[event := Hit(b, call, windowMs)]
      ensures event !in old(buckets) || old(buckets)[event].resetAt <= now ==>
                ok && buckets == old(buckets)[event := Bucket(1, now + windowMs)]
      ensures event in old(buckets) && old(buckets)[event].resetAt > now ==>
                var b := old(buckets)[event];
                buckets == old(buckets)[event := Bucket(b.count + 1, b.resetAt)] && ok == (b.count + 1 <= limit)
    {
      if event !in buckets || buckets[event].resetAt <= now {
        buckets := buckets[event := Bucket(1, now + windowMs)];
        return true;
      }
      buckets := buckets[event := buckets[event].(count := buckets[event].count + 1)];
      ok := buckets[event].count <= limit;
    }
  }

  datatype Verdict = Verdict(allowed: bool, remaining: nat)

  /** The counter in Redis, which drops a key some time after its expiry. */
  class RedisCounter {
    var count: nat                 // 0 when the key does not exist
    var expiresAt: Option<int>

    /** No key ever exists without an expiry, so nobody is locked out for good. */
    ghost predicate Valid()
      reads this
    {
      count == 0 <==> expiresAt.None?
    }

    ghost function Window(): Option<Bucket>
      requires Valid()
      reads this
    {
      if count == 0 then None else Some(Bucket(count, expiresAt.value))
    }

    constructor ()
      ensures Valid() && Window() == None
    {
      count, expiresAt := 0, None;
    }

    /** INCR and EXPIRE NX in one MULTI; `expired` is whether Redis has dropped the old key by now. */
    method Count(windowSeconds: int, now: int, expired: bool)
      requires Valid() && Timely(Window(), Call(now, expired))
      modifies this
      ensures Valid() && Window() == Some(Hit(old(Window()), Call(now, expired), 1000 * windowSeconds))
      ensures old(count) == 0 || expired ==> count == 1 && expiresAt == Some(now + 1000 * windowSeconds)
      ensures old(count) != 0 && !expired ==> count == old(count) + 1 && expiresAt == old(expiresAt)
    {
      if expired { count, expiresAt := 0, None; }
      count := count + 1;
      if expiresAt.None? { expiresAt := Some(now + 1000 * windowSeconds); }
    }

    /** consumeRateLimit: fails open when Redis does not answer, whether or not it got to count. */
    method Consume(limit: nat, windowSeconds: int, now: int, expired: bool, answers: bool, counted: bool)
      returns (verdict: Verdict)
      requires Valid() && Timely(Window(), Call(now, expired)) && (answers ==> counted)
      modifies this
      ensures Valid()
      ensures Window() == if counted then Some(Hit(old(Window()), Call(now, expired), 1000 * windowSeconds))
                          else old(Window())
      ensures !answers ==> verdict == Verdict(true, limit)
      ensures answers ==> verdict.allowed == (count <= limit) &&
                          count == if old(count) == 0 || expired then 1 else old(count) + 1
      ensures answers ==> verdict.allowed == (limit >= 1 && Admits(old(Window()), Call(now, expired), limit))
      ensures answers ==> verdict.remaining == (if count <= limit then limit - count else 0)
    {
      if counted { Count(windowSeconds, now, expired); }
      if !answers { return Verdict(true, limit); }
      verdict := Verdict(count <= limit, if count <= limit then limit - count else 0);
    }
  }

  // ---------------------------------------------------------------------------------------
  // How much a window limiter lets through
  // ---------------------------------------------------------------------------------------

  /** Calls in the order of their times, each starting a new window only once the old one is over. */
  predicate Plausible(b: Option<Bucket>, calls: seq<Call>, windowMs: int)
    decreases calls
  {
    calls == [] ||
    (Timely(b, calls[0]) && (forall i | 0 <= i < |calls| :: calls[0].at <= calls[i].at) &&
     Plausible(Some(Hit(b, calls[0], windowMs)), calls[1..], windowMs))
  }

  /** How many of the calls are admitted and fall into [from, until). */
  function Admitted(b: Option<Bucket>, calls: seq<Call>, limit: int, windowMs: int, from: int, until: int): nat
    decreases calls
  {
    if calls == [] then 0
    else
      (if Admits(b, calls[0], limit) && from <= calls[0].at < until then 1 else 0) +
      Admitted(Some(Hit(b, calls[0], windowMs)), calls[1..], limit, windowMs, from, until)
  }

  /** How many stretches of `d` cover a stretch of `n`: n / d rounded up. */
  function CeilDiv(n: int, d: int): nat
    requires d > 0
    decreases n
  {
    if n <= 0 then 0 else 1 + CeilDiv(n - d, d)
  }

  lemma {:induction false} CeilDivRoundsUp(n: int, d: int)
    requires d > 0 && n > 0
    ensures d * (CeilDiv(n, d) - 1) < n <= d * CeilDiv(n, d)
    decreases n
  {
    if n > d {
      CeilDivRoundsUp(n - d, d);
      assert d * (CeilDiv(n - d, d) + 1) == d * CeilDiv(n - d, d) + d;
      assert d * (CeilDiv(n - d, d) - 1) == d * CeilDiv(n - d, d) - d;
    } else {
      assert CeilDiv(n, d) == 1;
    }
  }

  lemma {:induction false} CeilDivMonotone(n: int, m: int, d: int)
    requires d > 0 && n <= m
    ensures CeilDiv(n, d) <= CeilDiv(m, d)
    decreases m
  {
    if n > 0 {
      CeilDivMonotone(n - d, m - d, d);
    }
  }

  function Max(a: int, b: int): int { if a < b then b else a }

  /** What the current window can still admit. */
  function Left(b: Option<Bucket>, limit: nat): nat {
    if b.Some? && b.value.count <= limit then limit - b.value.count else 0
  }

  /** When the next window can start at the earliest. */
  function NextStart(b: Option<Bucket>, from: int): int { if b.Some? then Max(b.value.resetAt, from) else from }

  /** The rest of the current window, and a full one for every window that can still start. */
  function Bound(b: Option<Bucket>, limit: nat, windowMs: int, from: int, until: int): nat
    requires windowMs > 0
  {
    Left(b, limit) + limit * CeilDiv(until - NextStart(b, from), windowMs)
  }

  lemma {:induction false} NothingAfter(b: Option<Bucket>, calls: seq<Call>, limit: int, windowMs: int,
                                        from: int, until: int)
    requires forall i | 0 <= i < |calls| :: calls[i].at >= until
    ensures Admitted(b, calls, limit, windowMs, from, until) == 0
    decreases calls
  {
    if calls != [] {
      NothingAfter(Some(Hit(b, calls[0], windowMs)), calls[1..], limit, windowMs, from, until);
    }
  }

  /** One call inside the interval uses up at least what it admits. */
  lemma HitUsesBound(b: Option<Bucket>, c: Call, limit: nat, windowMs: int, from: int, until: int)
    requires limit >= 1 && windowMs > 0 && from <= c.at < until && Timely(b, c)
    ensures Bound(Some(Hit(b, c, windowMs)), limit, windowMs, c.at, until) + (if Admits(b, c, limit) then 1 else 0)
            <= Bound(b, limit, windowMs, from, until)
  {
    if b.None? || c.renews {
      CeilDivMonotone(until - c.at, until - NextStart(b, from), windowMs);
      TimesMonotone(limit, CeilDiv(until - c.at, windowMs), CeilDiv(until - NextStart(b, from), windowMs));
      TimesOneMore(limit, CeilDiv(until - c.at - windowMs, windowMs));
      assert NextStart(Some(Hit(b, c, windowMs)), c.at) == c.at + windowMs;
    } else {
      var later := NextStart(Some(Hit(b, c, windowMs)), c.at);
      CeilDivMonotone(until - later, until - NextStart(b, from), windowMs);
      TimesMonotone(limit, CeilDiv(until - later, windowMs), CeilDiv(until - NextStart(b, from), windowMs));
    }
  }

  /** Where the interval starts does not matter to calls that are all later. */
  lemma {:induction false} LaterStartSameCount(b: Option<Bucket>, calls: seq<Call>, limit: int, windowMs: int,
                                               from: int, later: int, until: int)
    requires from <= later && forall i | 0 <= i < |calls| :: later <= calls[i].at
    ensures Admitted(b, calls, limit, windowMs, from, until) == Admitted(b, calls, limit, windowMs, later, until)
    decreases calls
  {
    if calls != [] {
      LaterStartSameCount(Some(Hit(b, calls[0], windowMs)), calls[1..], limit, windowMs, from, later, until);
    }
  }

  /** From any bucket, calls from `from` on never exceed the bound. */
  lemma {:induction false} AdmittedWithinBound(b: Option<Bucket>, calls: seq<Call>, limit: nat, windowMs: int,
                                               from: int, until: int)
    requires limit >= 1 && windowMs > 0 && Plausible(b, calls, windowMs) && (calls != [] ==> from <= calls[0].at)
    ensures Admitted(b, calls, limit, windowMs, from, until) <= Bound(b, limit, windowMs, from, until)
    decreases calls
  {
    if calls != [] {
      if calls[0].at >= until {
        NothingAfter(b, calls, limit, windowMs, from, until);
      } else {
        var c, b' := calls[0], Some(Hit(b, calls[0], windowMs));
        AdmittedWithinBound(b', calls[1..], limit, windowMs, c.at, until);
        HitUsesBound(b, c, limit, windowMs, from, until);
        LaterStartSameCount(b', calls[1..], limit, windowMs, from, c.at, until);
      }
    }
  }

  /**
   Window bound. Over any calls at non-decreasing times, from any bucket, each half-open interval
   of length T admits at most limit * (ceil(T / window) + 1) - 1 calls: the call that started the
   window in progress came before the interval, or no window was in progress. It does not matter
   how late a window that is over gets replaced, so this covers the flood guard and the Redis
   counter alike.
  */
  lemma {:induction false} WindowBound(b: Option<Bucket>, calls: seq<Call>, limit: nat, windowMs: int,
                                       from: int, length: int)
    requires limit >= 1 && windowMs > 0 && length > 0 && Plausible(b, calls, windowMs)
    ensures Admitted(b, calls, limit, windowMs, from, from + length) <= limit * (CeilDiv(length, windowMs) + 1) - 1
    decreases calls
  {
    if calls != [] && calls[0].at < from {
      WindowBound(Some(Hit(b, calls[0], windowMs)), calls[1..], limit, windowMs, from, length);
    } else {
      AdmittedWithinBound(b, calls, limit, windowMs, from, from + length);
      CeilDivMonotone(from + length - NextStart(b, from), length, windowMs);
      TimesMonotone(limit, CeilDiv(from + length - NextStart(b, from), windowMs), CeilDiv(length, windowMs));
      TimesOneMore(limit, CeilDiv(length, windowMs));
    }
  }

  /** The calls a guard sees at these times, when it replaces a window as soon as it is due. */
  function GuardCalls(b: Option<Bucket>, times: seq<int>, windowMs: int): seq<Call>
    decreases times
  {
    if times == [] then []
    else
      var call := Call(times[0], IsDue(b, times[0]));
      [call] + GuardCalls(Some(Hit(b, call, windowMs)), times[1..], windowMs)
  }

  /** A flood guard on a clock that does not run backwards is one of the limiters bounded here. */
  lemma {:induction false} GuardCallsArePlausible(b: Option<Bucket>, times: seq<int>, windowMs: int)
    requires forall i, j | 0 <= i < j < |times| :: times[i] <= times[j]
    ensures |GuardCalls(b, times, windowMs)| == |times| && Plausible(b, GuardCalls(b, times, windowMs), windowMs)
    ensures forall i | 0 <= i < |times| :: GuardCalls(b, times, windowMs)[i].at == times[i]
    decreases times
  {
    if times != [] {
      var call := Call(times[0], IsDue(b, times[0]));
      GuardCallsArePlausible(Some(Hit(b, call, windowMs)), times[1..], windowMs);
    }
  }

  /** The bucket after calls at these times. */
  function GuardBucket(b: Option<Bucket>, times: seq<int>, windowMs: int): Option<Bucket>
    decreases times
  {
    if times == [] then b
    else GuardBucket(Some(Hit(b, Call(times[0], IsDue(b, times[0])), windowMs)), times[1..], windowMs)
  }

  lemma {:induction false} GuardCallAt(b: Option<Bucket>, times: seq<int>, windowMs: int, i: nat)
    requires i < |times|
    ensures |GuardCalls(b, times, windowMs)| == |times|
    ensures var before := GuardBucket(b, times[..i], windowMs);
      GuardCalls(b, times, windowMs)[i] == Call(times[i], IsDue(before, times[i])) &&
      GuardBucket(b, times[..i + 1], windowMs) == Some(Hit(before, GuardCalls(b, times, windowMs)[i], windowMs))
    decreases times
  {
    var b' := Some(Hit(b, Call(times[0], IsDue(b, times[0])), windowMs));
    GuardCallsLength(b', times[1..], windowMs);
    assert times[..i + 1][1..] == times[1..][..i];
    if i > 0 {
      GuardCallAt(b', times[1..], windowMs, i - 1);
      assert times[..i][1..] == times[1..][..i - 1];
    }
  }

  lemma {:induction false} GuardCallsLength(b: Option<Bucket>, times: seq<int>, windowMs: int)
    ensures |GuardCalls(b, times, windowMs)| == |times|
    decreases times
  {
    if times != [] {
      GuardCallsLength(Some(Hit(b, Call(times[0], IsDue(b, times[0])), windowMs)), times[1..], windowMs);
    }
  }

  /**
   An ended window is always replaced: the first call at or after its end is admitted, whatever the
   limit, and starts a new one; any other call is counted in the window in progress and admitted up
   to the limit.
  */
  lemma EndedWindowsAreReplaced(b: Option<Bucket>, times: seq<int>, windowMs: int, limit: int, i: nat)
    requires i < |times|
    ensures |GuardCalls(b, times, windowMs)| == |times|
    ensures var before, after := GuardBucket(b, times[..i], windowMs), GuardBucket(b, times[..i + 1], windowMs);
      var admitted := Admits(before, GuardCalls(b, times, windowMs)[i], limit);
      if before.None? || before.value.resetAt <= times[i]
      then admitted && after == Some(Bucket(1, times[i] + windowMs))
      else after == Some(Bucket(before.value.count + 1, before.value.resetAt)) &&
           admitted == (before.value.count + 1 <= limit)
  {
    GuardCallAt(b, times, windowMs, i);
  }

  /** The window in progress after a call was started by an admitted call at most one window before. */
  lemma {:induction false} WindowHasStart(times: seq<int>, windowMs: int, limit: int, i: nat) returns (j: nat)
    requires i < |times| && windowMs > 0
    ensures j <= i && |GuardCalls(None, times, windowMs)| == |times|
    ensures Admits(GuardBucket(None, times[..j], windowMs), GuardCalls(None, times, windowMs)[j], limit)
    ensures GuardBucket(None, times[..i + 1], windowMs).Some?
    ensures GuardBucket(None, times[..i + 1], windowMs).value.resetAt == times[j] + windowMs > times[i]
  {
    EndedWindowsAreReplaced(None, times, windowMs, limit, i);
    var before := GuardBucket(None, times[..i], windowMs);
    if before.None? || before.value.resetAt <= times[i] {
      j := i;
    } else {
      assert times[..0] == [];
      j := WindowHasStart(times, windowMs, limit, i - 1);
    }
  }

  /**
   Nobody is shut out: every call of a guard that started empty, admitted or not, comes less than one
   window after a call that was admitted - itself or an earlier one - under any limit.
  */
  lemma NobodyIsShutOut(times: seq<int>, windowMs: int, limit: int, i: nat) returns (j: nat)
    requires i < |times| && windowMs > 0
    ensures j <= i && times[i] < times[j] + windowMs && |GuardCalls(None, times, windowMs)| == |times|
    ensures Admits(GuardBucket(None, times[..j], windowMs), GuardCalls(None, times, windowMs)[j], limit)
  {
    j := WindowHasStart(times, windowMs, limit, i);
  }

  /** The first call of a window is not compared, so every limit below one acts as one. */
  lemma {:induction false} LimitsBelowOneActAsOne(b: Option<Bucket>, calls: seq<Call>, limit: int, windowMs: int,
                                                  from: int, until: int)
    requires limit <= 1
    ensures Admitted(b, calls, limit, windowMs, from, until) == Admitted(b, calls, 1, windowMs, from, until)
    decreases calls
  {
    if calls != [] {
      LimitsBelowOneActAsOne(Some(Hit(b, calls[0], windowMs)), calls[1..], limit, windowMs, from, until);
    }
  }

  /** A limit of zero does not close the gate: one call in every window gets through. */
  lemma ZeroLimitAdmitsACall(windowMs: int, at: int)
    requires windowMs > 0
    ensures Plausible(None, [Call(at, false), Call(at, false)], windowMs)
    ensures Admitted(None, [Call(at, false), Call(at, false)], 0, windowMs, at, at + windowMs) == 1
  {
    var started, call := Some(Bucket(1, at + windowMs)), Call(at, false);
    assert [call, call][1..] == [call] && [call][1..] == [];
    assert Admitted(started, [call], 0, windowMs, at, at + windowMs) == 0;
    assert Hit(None, call, windowMs) == started.value;
  }

  /**
   In a stretch as long as the window less than twice the limit gets through: the burst at a
   window's edge. A limit below one acts as one.
  */
  lemma AtMostTwiceTheLimit(b: Option<Bucket>, calls: seq<Call>, limit: int, windowMs: int, from: int)
    requires windowMs > 0 && Plausible(b, calls, windowMs)
    ensures Admitted(b, calls, limit, windowMs, from, from + windowMs) < 2 * Max(limit, 1)
  {
    if limit <= 1 {
      LimitsBelowOneActAsOne(b, calls, limit, windowMs, from, from + windowMs);
    }
    WindowBound(b, calls, Max(limit, 1), windowMs, from, windowMs);
    assert CeilDiv(windowMs, windowMs) == 1;
  }

  /** `n` calls at the same moment; only the first can start a window. */
  function Burst(at: int, n: nat, renews: bool): seq<Call> {
    if n == 0 then [] else [Call(at, renews)] + Burst(at, n - 1, false)
  }

  lemma {:induction false} BurstIsAdmitted(b: Option<Bucket>, at: int, n: nat, rest: seq<Call>, limit: nat,
                                           windowMs: int, from: int, until: int)
    requires b.Some? && b.value.count + n <= limit && from <= at < until
    ensures Admitted(b, Burst(at, n, false) + rest, limit, windowMs, from, until) ==
            n + Admitted(Some(b.value.(count := b.value.count + n)), rest, limit, windowMs, from, until)
    decreases n
  {
    if n == 0 {
      assert Burst(at, n, false) + rest == rest;
    } else {
      var b' := b.value.(count := b.value.count + 1);
      assert (Burst(at, n, false) + rest)[1..] == Burst(at, n - 1, false) + rest;
      BurstIsAdmitted(Some(b'), at, n - 1, rest, limit, windowMs, from, until);
    }
  }

  lemma {:induction false} BurstTimes(at: int, n: nat, renews: bool)
    ensures |Burst(at, n, renews)| == n
    ensures forall i | 0 <= i < n :: Burst(at, n, renews)[i].at == at && (i > 0 ==> !Burst(at, n, renews)[i].renews)
  {
    if n > 0 {
      BurstTimes(at, n - 1, false);
    }
  }

  lemma {:induction false} BurstIsPlausible(b: Option<Bucket>, at: int, n: nat, rest: seq<Call>, windowMs: int)
    requires b.Some? && (forall i | 0 <= i < |rest| :: at <= rest[i].at)
    requires Plausible(Some(b.value.(count := b.value.count + n)), rest, windowMs)
    ensures Plausible(b, Burst(at, n, false) + rest, windowMs)
    decreases n
  {
    if n == 0 {
      assert Burst(at, n, false) + rest == rest;
    } else {
      BurstTimes(at, n, false);
      assert (Burst(at, n, false) + rest)[1..] == Burst(at, n - 1, false) + rest;
      BurstIsPlausible(Some(b.value.(count := b.value.count + 1)), at, n - 1, rest, windowMs);
    }
  }

  /** A full burst that renews the window at the very moment it ends is admitted whole. */
  lemma RenewingBurst(limit: nat, windowMs: int, from: int)
    requires limit >= 1 && windowMs > 1 && from <= windowMs < from + windowMs
    ensures var second, full := Burst(windowMs, limit, true), Some(Bucket(limit, windowMs));
      Plausible(full, second, windowMs) &&
      Admitted(full, second, limit, windowMs, from, from + windowMs) == limit
  {
    var second, started := Burst(windowMs, limit, true), Some(Bucket(1, 2 * windowMs));
    BurstTimes(windowMs, limit, true);
    assert second[1..] == Burst(windowMs, limit - 1, false) + [];
    BurstIsPlausible(started, windowMs, limit - 1, [], windowMs);
    BurstIsAdmitted(started, windowMs, limit - 1, [], limit, windowMs, from, from + windowMs);
  }

  /** A burst that fills the window just before its end, and one that renews it at its end. */
  lemma TwoBursts(limit: nat, windowMs: int) returns (calls: seq<Call>)
    requires limit >= 1 && windowMs > 1
    ensures forall i | 0 <= i < |calls| :: 0 <= calls[i].at
    ensures var started := Some(Bucket(1, windowMs));
      Plausible(started, calls, windowMs) &&
      Admitted(started, calls, limit, windowMs, windowMs - 1, 2 * windowMs - 1) == 2 * limit - 1
  {
    var from, started := windowMs - 1, Some(Bucket(1, windowMs));
    var second := Burst(windowMs, limit, true);
    RenewingBurst(limit, windowMs, from);
    BurstTimes(from, limit - 1, false);
    BurstTimes(windowMs, limit, true);
    BurstIsAdmitted(started, from, limit - 1, second, limit, windowMs, from, from + windowMs);
    BurstIsPlausible(started, from, limit - 1, second, windowMs);
    calls := Burst(from, limit - 1, false) + second;
  }

  /**
   The bound is met exactly: with one call at the start of a window, and full bursts just before
   and at its end, all but one of 2 * limit calls fall into one stretch of window length.
  */
  lemma TwiceTheLimitIsReached(limit: nat, windowMs: int) returns (calls: seq<Call>)
    requires limit >= 1 && windowMs > 1
    ensures Plausible(None, calls, windowMs)
    ensures Admitted(None, calls, limit, windowMs, windowMs - 1, 2 * windowMs - 1) == 2 * limit - 1
  {
    var bursts := TwoBursts(limit, windowMs);
    calls := [Call(0, false)] + bursts;
    assert calls[1..] == bursts;
  }
}
