/**
 Login lockout: five failures, then a doubling delay capped at fifteen minutes. Times are in
 milliseconds.
*/
module Lockout {
  import opened Common

  const THRESHOLD: nat := 5
  const MAX_LOCK_SECONDS: nat := 900

  function PowerOfTwo(n: nat): nat { if n == 0 then 1 else 2 * PowerOfTwo(n - 1) }

  /** The lock set by the `attempts`-th consecutive failure, in seconds; none below the threshold. */
  function LockSeconds(attempts: nat): nat {
    if attempts < THRESHOLD then 0
    else
      var seconds := 30 * PowerOfTwo(attempts - THRESHOLD);
      if seconds < MAX_LOCK_SECONDS then seconds else MAX_LOCK_SECONDS
  }

  datatype Login = Login(failedAttempts: nat, lockedUntil: Option<int>)

  predicate IsLocked(l: Login, now: int) { l.lockedUntil.Some? && l.lockedUntil.value > now }

  function RecordFailure(l: Login, now: int): Login {
    var attempts := l.failedAttempts + 1;
    Login(attempts, if attempts >= THRESHOLD then Some(now + 1000 * LockSeconds(attempts)) else None)
  }

  const CLEAN: Login := Login(0, None)

  datatype Answer = LockedOut(retryAfter: int) | InvalidCredentials | Restricted | Welcome

  class Account {
    var failedLoginAttempts: nat
    var lockedUntil: Option<int>

    ghost function Now(): Login
      reads this
    {
      Login(failedLoginAttempts, lockedUntil)
    }

    constructor ()
      ensures Now() == CLEAN
    {
      failedLoginAttempts, lockedUntil := 0, None;
    }

    /**
     The part of `login` that reads and writes the lock. A locked account is not even tried, and a
     banned or suspended owner is told so without clearing the count.
    */
    method Attempt(passwordValid: bool, restricted: bool, now: int) returns (answer: Answer)
      modifies this
      ensures answer.LockedOut? <==> old(lockedUntil).Some? && now < old(lockedUntil).value
      ensures IsLocked(old(Now()), now) ==> answer.LockedOut? && Now() == old(Now())
      ensures IsLocked(old(Now()), now) ==>
        1000 * (answer.retryAfter - 1) < old(lockedUntil).value - now <= 1000 * answer.retryAfter
      ensures !IsLocked(old(Now()), now) && passwordValid && restricted ==>
                answer == Restricted && Now() == old(Now())
      ensures !IsLocked(old(Now()), now) && passwordValid && !restricted ==> answer == Welcome && Now() == CLEAN
      ensures !IsLocked(old(Now()), now) && !passwordValid ==>
                answer == InvalidCredentials && Now() == RecordFailure(old(Now()), now)
    {
      if lockedUntil.Some? && lockedUntil.value > now {
        return LockedOut((lockedUntil.value - now + 999) / 1000);
      }
      if !passwordValid {
        RecordFailedLogin(now);
        return InvalidCredentials;
      }
      if restricted { return Restricted; }
      failedLoginAttempts, lockedUntil := 0, None;
      answer := Welcome;
    }

    method RecordFailedLogin(now: int)
      modifies this
      ensures Now() == RecordFailure(old(Now()), now)
    {
      failedLoginAttempts := failedLoginAttempts + 1;
      lockedUntil := None;
      if failedLoginAttempts >= THRESHOLD {
        var overage := failedLoginAttempts - THRESHOLD;
        var seconds := 30 * PowerOfTwo(overage);
        if seconds > MAX_LOCK_SECONDS { seconds := MAX_LOCK_SECONDS; }
        lockedUntil := Some(now + 1000 * seconds);
      }
    }
  }

  // ---------------------------------------------------------------------------------------
  // Consecutive admitted failures
  // ---------------------------------------------------------------------------------------

  /** The account after failures at all of `times`. */
  function After(times: seq<int>): Login {
    if times == [] then CLEAN else RecordFailure(After(times[..|times| - 1]), times[|times| - 1])
  }

  /** The `n`-th failure is not turned away by a lock, and the clock has not run backwards. */
  predicate AdmittedAt(times: seq<int>, n: nat)
    requires n < |times|
  {
    !IsLocked(After(times[..n]), times[n]) && (n > 0 ==> times[n - 1] <= times[n])
  }

  predicate AllAdmitted(times: seq<int>) { forall n: nat | n < |times| :: AdmittedAt(times, n) }

  /** Each failure waits out the lock that the one before it set. */
  predicate SpacedAt(times: seq<int>, n: nat)
    requires n < |times|
  {
    n == 0 || times[n] - times[n - 1] >= 1000 * LockSeconds(n)
  }

  lemma {:induction false} AfterCounts(times: seq<int>)
    ensures After(times).failedAttempts == |times|
    ensures |times| >= THRESHOLD ==> After(times).lockedUntil == Some(times[|times| - 1] + 1000 * LockSeconds(|times|))
    ensures |times| < THRESHOLD ==> After(times).lockedUntil == None
  {
    if times != [] {
      AfterCounts(times[..|times| - 1]);
    }
  }

  lemma OneIsSpaced(times: seq<int>, n: nat)
    requires n < |times|
    ensures AdmittedAt(times, n) <==> SpacedAt(times, n)
  {
    AfterCounts(times[..n]);
    if n > 0 {
      assert times[..n][n - 1] == times[n - 1];
    }
  }

  /**
   A schedule of failures is admitted exactly if each one waits out the lock set by the one
   before it: the n-th failure (n from 1) is followed after at least LockSeconds(n).
  */
  lemma AdmittedIffSpaced(times: seq<int>)
    ensures AllAdmitted(times) <==> forall n: nat | n < |times| :: SpacedAt(times, n)
  {
    forall n: nat | n < |times| ensures AdmittedAt(times, n) <==> SpacedAt(times, n) {
      OneIsSpaced(times, n);
    }
  }

  /** From the tenth failure on every lock is the longest one. */
  lemma {:induction false} LongLocks(attempts: nat)
    requires attempts >= 10
    ensures LockSeconds(attempts) == MAX_LOCK_SECONDS
  {
    PowersGrow(attempts - THRESHOLD);
  }

  lemma {:induction false} PowersGrow(n: nat)
    requires n >= 5
    ensures PowerOfTwo(n) >= 32
  {
    if n > 5 {
      PowersGrow(n - 1);
    } else {
      assert PowerOfTwo(5) == 2 * PowerOfTwo(4) && PowerOfTwo(4) == 2 * PowerOfTwo(3);
    }
  }

  /** No lock is ever longer than fifteen minutes, and from the fifth failure on there always is one. */
  lemma LocksAreBounded(attempts: nat)
    ensures LockSeconds(attempts) <= MAX_LOCK_SECONDS
    ensures attempts >= THRESHOLD ==> LockSeconds(attempts) >= 30
  {
    if attempts >= THRESHOLD {
      PowersArePositive(attempts - THRESHOLD);
    }
  }

  lemma {:induction false} PowersArePositive(n: nat)
    ensures PowerOfTwo(n) >= 1
  {
    if n > 0 {
      PowersArePositive(n - 1);
    }
  }

  lemma FirstLocks()
    ensures LockSeconds(5) == 30 && LockSeconds(6) == 60 && LockSeconds(7) == 120
    ensures LockSeconds(8) == 240 && LockSeconds(9) == 480
  {
    assert PowerOfTwo(0) == 1 && PowerOfTwo(1) == 2 && PowerOfTwo(2) == 4;
    assert PowerOfTwo(3) == 8 && PowerOfTwo(4) == 16;
  }

  /** The waiting between the fifth and the n-th failure that the locks force. */
  function ForcedWait(n: nat): nat
    requires n >= 10
  {
    930 + 900 * (n - 10)
  }

  /**
   Lockout spacing. Ten or more consecutive failures that were all admitted put the n-th at least
   930 + 900 * (n - 10) seconds after the fifth.
  */
  lemma {:induction false} LockoutSpacing(times: seq<int>, n: nat)
    requires AllAdmitted(times) && 10 <= n <= |times|
    ensures times[n - 1] - times[4] >= 1000 * ForcedWait(n)
  {
    AdmittedIffSpaced(times);
    if n == 10 {
      FirstLocks();
      assert SpacedAt(times, 5) && SpacedAt(times, 6) && SpacedAt(times, 7) && SpacedAt(times, 8) && SpacedAt(times, 9);
      assert times[5] - times[4] >= 30_000 && times[6] - times[5] >= 60_000 && times[7] - times[6] >= 120_000;
      assert times[8] - times[7] >= 240_000 && times[9] - times[8] >= 480_000;
    } else {
      LockoutSpacing(times, n - 1);
      LongLocks(n - 1);
      assert SpacedAt(times, n - 1);
    }
  }

  /** The quickest schedule: every failure the moment the lock before it ends. */
  function Quickest(n: nat): seq<int> {
    if n == 0 then []
    else if n == 1 then [0]
    else
      var front := Quickest(n - 1);
      if front == [] then [0] else front + [front[|front| - 1] + 1000 * LockSeconds(n - 1)]
  }

  lemma {:induction false} QuickestIsAdmitted(n: nat)
    ensures |Quickest(n)| == n && AllAdmitted(Quickest(n))
  {
    if n >= 2 {
      QuickestIsAdmitted(n - 1);
      var front, times := Quickest(n - 1), Quickest(n);
      AdmittedIffSpaced(front);
      forall k: nat | k < n ensures SpacedAt(times, k) {
        if k < n - 1 { assert SpacedAt(front, k); }
      }
    }
    AdmittedIffSpaced(Quickest(n));
  }

  lemma {:induction false} QuickestGrows(n: nat)
    requires n >= 2
    ensures |Quickest(n)| == n && Quickest(n)[..n - 1] == Quickest(n - 1)
    ensures Quickest(n)[n - 1] == Quickest(n)[n - 2] + 1000 * LockSeconds(n - 1)
  {
    QuickestIsAdmitted(n - 1);
  }

  /** The bound is tight: somebody guessing as fast as allowed is slowed down by exactly that much. */
  lemma {:induction false} SpacingIsTight(n: nat)
    requires n >= 10
    ensures |Quickest(n)| == n && AllAdmitted(Quickest(n))
    ensures Quickest(n)[n - 1] - Quickest(n)[4] == 1000 * ForcedWait(n)
  {
    QuickestIsAdmitted(n);
    QuickestGrows(n);
    if n == 10 {
      FirstLocks();
      QuickestGrows(9); QuickestGrows(8); QuickestGrows(7); QuickestGrows(6);
    } else {
      SpacingIsTight(n - 1);
      LongLocks(n - 1);
      assert Quickest(n)[n - 2] == Quickest(n - 1)[n - 2] && Quickest(n)[4] == Quickest(n - 1)[4];
    }
  }
}
