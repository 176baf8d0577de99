/**
 What the pairing locks buy while they expire under nobody but crashed runs: mutual exclusion and
 claims that cannot fail. What they buy in any case: collective progress without waiting. And why
 the NX claims are still needed: one lock expiring under a live run leads to the rollback branch.
 */
module PairingLocks {
  import opened Common
  import opened Pairing
  import opened PairingSafety

  predicate Verifying(phase: Phase) {
    phase.CheckQueuedSeeker? || phase.CheckQueuedPartner? || phase.CheckBusySeeker? || phase.CheckBusyPartner? ||
    phase.PickId?
  }

  predicate Writing(phase: Phase) {
    phase.ClaimSeeker? || phase.ClaimPartner? || phase.Rollback? || phase.LeaveSeeker? || phase.LeavePartner?
  }

  /** How far the protected section of a run is taken to reach: to its second claim, or to its release. */
  datatype Extent = ToClaims | ToRelease

  /** Having acquired both locks, up to and including the second claim or the first release. */
  predicate Critical(run: Run, x: Extent) {
    Verifying(run.phase) || run.phase.ClaimSeeker? || run.phase.ClaimPartner? ||
    (x == ToRelease && (Writing(run.phase) || run.phase.UnlockFirst?))
  }

  predicate HasLock(s: State, run: Run, u: UserId) { u in s.locks && s.locks[u] == run.token }

  /** Having taken the first lock, between the two try-locks or in the critical section. */
  predicate NeedsFirst(run: Run, x: Extent) { run.phase == LockSecond || Critical(run, x) }

  predicate Relies(s: State, run: Run, u: UserId, x: Extent) {
    HasLock(s, run, u) && ((NeedsFirst(run, x) && u == run.First()) || (Critical(run, x) && u == run.Second()))
  }

  predicate Moves(e: Event, r: nat) { e == Advance(r) || (e.DrawId? && e.run == r) }

  predicate MovesNone(e: Event, losers: set<nat>) { forall r | r in losers :: !Moves(e, r) }

  /** The runs that lose a lock they rely on: the lock expires under them. */
  function LosersNow(s: State, e: Event, x: Extent): set<nat> {
    if e.LockExpires? then set r | r in s.runs && Relies(s, s.runs[r], e.user, x) else {}
  }

  function Losers(s: State, events: seq<Event>, x: Extent): set<nat> {
    if events == [] then {}
    else Losers(s, events[..|events| - 1], x) + LosersNow(Execute(s, events[..|events| - 1]), events[|events| - 1], x)
  }

  /**
   A lock expires under a run that relies on it only if that run has crashed: it never moves again.
   Locks that nobody relies on - handed back too late, or left behind - may expire at any time.
  */
  ghost predicate OnlyTheCrashedLoseLocks(s: State, events: seq<Event>, x: Extent) {
    forall i: nat | i < |events| :: MovesNone(events[i], Losers(s, events[..i], x))
  }

  /** Every run that has not lost a lock still has the locks it relies on. */
  ghost predicate LocksOk(s: State, losers: set<nat>, x: Extent) {
    forall r | r in s.runs && r !in losers ::
      (NeedsFirst(s.runs[r], x) ==> HasLock(s, s.runs[r], s.runs[r].First())) &&
      (Critical(s.runs[r], x) ==> HasLock(s, s.runs[r], s.runs[r].Second()))
  }

  /** A key set under another token is untouched by what `run` does to the locks. */
  lemma OtherLocksStay(locks: map<UserId, Token>, run: Run, u: UserId)
    requires u in locks && locks[u] != run.token
    ensures u in LocksAfter(locks, run) && LocksAfter(locks, run)[u] == locks[u]
  {
  }

  lemma OwnLocksFollow(s: State, run: Run, x: Extent)
    requires RunOk(run)
    requires NeedsFirst(run, x) ==> HasLock(s, run, run.First())
    requires Critical(run, x) ==> HasLock(s, run, run.Second())
    ensures var run', locks' := NextRun(run, Reply(s, run)), LocksAfter(s.locks, run);
      (NeedsFirst(run', x) ==> run.First() in locks' && locks'[run.First()] == run.token) &&
      (Critical(run', x) ==> run.Second() in locks' && locks'[run.Second()] == run.token) &&
      run'.First() == run.First() && run'.Second() == run.Second() && run'.token == run.token
  {
  }

  lemma LocksOkAdvance(s: State, r: nat, losers: set<nat>, x: Extent)
    requires RunsOk(s) && LocksOk(s, losers, x) && r in s.runs && r !in losers
    ensures LocksOk(AdvanceRun(s, r), losers, x)
  {
    var run, s' := s.runs[r], AdvanceRun(s, r);
    OwnLocksFollow(s, run, x);
    forall q, u | q in s.runs && q != r && HasLock(s, s.runs[q], u) ensures HasLock(s', s.runs[q], u) {
      OtherLocksStay(s.locks, run, u);
    }
  }

  lemma LocksOkExpiry(s: State, u: UserId, losers: set<nat>, x: Extent)
    requires LocksOk(s, losers, x)
    ensures LocksOk(Next(s, LockExpires(u)), losers + LosersNow(s, LockExpires(u), x), x)
  {
    assert forall r | r in s.runs && r !in losers + LosersNow(s, LockExpires(u), x) :: !Relies(s, s.runs[r], u, x);
  }

  /** Every other event leaves the locks alone, and every run where it was in this respect. */
  lemma OthersKeepLocks(s: State, e: Event, losers: set<nat>, x: Extent)
    requires LocksOk(s, losers, x) && !e.Advance? && !e.LockExpires?
    ensures LocksOk(Next(s, e), losers, x)
  {
    match e
    case DrawId(r, id) =>
      if CanDraw(s, r, id) { assert Critical(s.runs[r], x); }
    case Select(_, _, _, _) =>
    case _ =>
  }

  lemma LocksOkStep(s: State, e: Event, losers: set<nat>, x: Extent)
    requires RunsOk(s) && LocksOk(s, losers, x) && MovesNone(e, losers)
    ensures LocksOk(Next(s, e), losers + LosersNow(s, e, x), x)
  {
    if e.Advance? && e.run in s.runs {
      LocksOkAdvance(s, e.run, losers, x);
    } else if e.LockExpires? {
      LocksOkExpiry(s, e.user, losers, x);
    } else if !e.Advance? {
      OthersKeepLocks(s, e, losers, x);
    }
    assert !e.LockExpires? ==> losers + LosersNow(s, e, x) == losers;
  }

  lemma FrontOnlyCrashedLose(s: State, events: seq<Event>, x: Extent)
    requires events != [] && OnlyTheCrashedLoseLocks(s, events, x)
    ensures OnlyTheCrashedLoseLocks(s, events[..|events| - 1], x)
    ensures MovesNone(events[|events| - 1], Losers(s, events[..|events| - 1], x))
  {
    var n := |events| - 1;
    var front := events[..n];
    forall i: nat | i < n ensures MovesNone(front[i], Losers(s, front[..i], x)) {
      assert front[..i] == events[..i] && MovesNone(events[i], Losers(s, events[..i], x));
    }
    assert MovesNone(events[n], Losers(s, events[..n], x));
  }

  lemma {:induction false} RunsOkAlways(s: State, events: seq<Event>)
    requires RunsOk(s)
    ensures RunsOk(Execute(s, events))
  {
    if events != [] {
      RunsOkAlways(s, events[..|events| - 1]);
      RunsOkStep(Execute(s, events[..|events| - 1]), events[|events| - 1]);
    }
  }

  lemma {:induction false} LocksOkAlways(s: State, events: seq<Event>, x: Extent)
    requires RunsOk(s) && LocksOk(s, {}, x) && OnlyTheCrashedLoseLocks(s, events, x)
    ensures LocksOk(Execute(s, events), Losers(s, events, x), x)
  {
    if events != [] {
      var front := events[..|events| - 1];
      FrontOnlyCrashedLose(s, events, x);
      LocksOkAlways(s, front, x);
      RunsOkAlways(s, front);
      LocksOkStep(Execute(s, front), events[|events| - 1], Losers(s, front, x), x);
    }
  }

  predicate ShareUser(a: Run, b: Run) { a.Involves(b.seeker) || a.Involves(b.partner) }

  lemma CriticalRunsAreDisjoint(s: State, r: nat, q: nat, losers: set<nat>, x: Extent)
    requires RunsOk(s) && LocksOk(s, losers, x) && r !in losers && q !in losers
    requires r in s.runs && q in s.runs && r != q && Critical(s.runs[r], x) && Critical(s.runs[q], x)
    ensures !ShareUser(s.runs[r], s.runs[q])
  {
    var a, b := s.runs[r], s.runs[q];
    assert forall u | a.Involves(u) :: HasLock(s, a, u);
    assert forall u | b.Involves(u) :: HasLock(s, b, u);
  }

  // ---------------------------------------------------------------------------------------
  // What re-verification established is still true at the claims
  // ---------------------------------------------------------------------------------------

  predicate SeekerSeenFree(run: Run) {
    (run.phase == CheckBusyPartner && run.verified) || run.phase.PickId? || run.phase.ClaimSeeker?
  }

  predicate PartnerSeenFree(run: Run) {
    run.phase.PickId? || run.phase.ClaimSeeker? || run.phase.ClaimPartner?
  }

  /** What a run has seen free is free. */
  predicate SeenIsFree(s: State, run: Run) {
    (SeekerSeenFree(run) ==> run.seeker !in s.occupancy) && (PartnerSeenFree(run) ==> run.partner !in s.occupancy)
  }

  ghost predicate VerifiedOk(s: State, losers: set<nat>) {
    forall r | r in s.runs :: s.runs[r].phase != Rollback && (r !in losers ==> SeenIsFree(s, s.runs[r]))
  }

  /** Only a run inside its own critical section writes occupancy, and only for its own users. */
  lemma OnlyOwnUsersAreClaimed(s: State, e: Event, u: UserId)
    requires u !in s.occupancy && u in Next(s, e).occupancy
    ensures e.Advance? && e.run in s.runs && s.runs[e.run].Involves(u) && Critical(s.runs[e.run], ToClaims)
  {
  }

  lemma OwnVerificationFollows(s: State, r: nat)
    requires RunsOk(s) && r in s.runs && s.runs[r].phase != Rollback && SeenIsFree(s, s.runs[r])
    ensures var s' := AdvanceRun(s, r); s'.runs[r].phase != Rollback && SeenIsFree(s', s'.runs[r])
  {
    var run := s.runs[r];
    assert RunOk(run);
  }

  lemma OtherVerificationStays(s: State, e: Event, r: nat, losers: set<nat>)
    requires RunsOk(s) && LocksOk(s, losers, ToClaims) && VerifiedOk(s, losers) && r in s.runs && e != Advance(r)
    requires r !in losers && MovesNone(e, losers)
    ensures r in Next(s, e).runs && SeenIsFree(Next(s, e), Next(s, e).runs[r])
  {
    var run := s.runs[r];
    forall u | run.Involves(u) && Critical(run, ToClaims) && u !in s.occupancy ensures u !in Next(s, e).occupancy {
      if u in Next(s, e).occupancy {
        OnlyOwnUsersAreClaimed(s, e, u);
        CriticalRunsAreDisjoint(s, r, e.run, losers, ToClaims);
      }
    }
  }

  lemma PhasesStay(s: State, e: Event, r: nat)
    requires r in s.runs && !Moves(e, r)
    ensures r in Next(s, e).runs && Next(s, e).runs[r] == s.runs[r]
  {
  }

  lemma VerifiedOkStep(s: State, e: Event, losers: set<nat>)
    requires RunsOk(s) && LocksOk(s, losers, ToClaims) && VerifiedOk(s, losers) && MovesNone(e, losers)
    ensures VerifiedOk(Next(s, e), losers + LosersNow(s, e, ToClaims))
  {
    var s', lost := Next(s, e), losers + LosersNow(s, e, ToClaims);
    forall r | r in s'.runs ensures s'.runs[r].phase != Rollback && (r !in lost ==> SeenIsFree(s', s'.runs[r])) {
      if r in s.runs {
        if e == Advance(r) {
          OwnVerificationFollows(s, r);
        } else {
          if !Moves(e, r) { PhasesStay(s, e, r); }
          if r !in lost { OtherVerificationStays(s, e, r, losers); }
        }
      }
    }
  }

  lemma {:induction false} VerifiedOkAlways(s: State, events: seq<Event>)
    requires RunsOk(s) && LocksOk(s, {}, ToClaims) && VerifiedOk(s, {}) && OnlyTheCrashedLoseLocks(s, events, ToClaims)
    ensures VerifiedOk(Execute(s, events), Losers(s, events, ToClaims))
  {
    if events != [] {
      var front := events[..|events| - 1];
      FrontOnlyCrashedLose(s, events, ToClaims);
      VerifiedOkAlways(s, front);
      LocksOkAlways(s, front, ToClaims);
      RunsOkAlways(s, front);
      VerifiedOkStep(Execute(s, front), events[|events| - 1], Losers(s, front, ToClaims));
    }
  }

  // ---------------------------------------------------------------------------------------
  // Main results
  // ---------------------------------------------------------------------------------------

  /**
   As long as locks expire only under runs that have crashed, two runs that share a user, and have
   not lost a lock, are never both in their critical sections - whether these are taken to end with
   the second claim, and locks may expire freely after that, or with the first release.
  */
  lemma MutualExclusion(s0: State, events: seq<Event>, r: nat, q: nat, x: Extent)
    requires Initial(s0) && OnlyTheCrashedLoseLocks(s0, events, x)
    requires r in Execute(s0, events).runs && q in Execute(s0, events).runs && r != q
    requires r !in Losers(s0, events, x) && q !in Losers(s0, events, x)
    requires ShareUser(Execute(s0, events).runs[r], Execute(s0, events).runs[q])
    ensures !(Critical(Execute(s0, events).runs[r], x) && Critical(Execute(s0, events).runs[q], x))
  {
    LocksOkAlways(s0, events, x);
    RunsOkAlways(s0, events);
    var s := Execute(s0, events);
    if Critical(s.runs[r], x) && Critical(s.runs[q], x) {
      CriticalRunsAreDisjoint(s, r, q, Losers(s0, events, x), x);
    }
  }

  /**
   If locks expire only under crashed runs until their second claim - after it they may expire under
   anybody - both claims of a run that has not crashed succeed once verification has passed, even
   next to the leftovers of crashed runs: rollback is dead code.
  */
  lemma ClaimsNeverFail(s0: State, events: seq<Event>, r: nat)
    requires Initial(s0) && OnlyTheCrashedLoseLocks(s0, events, ToClaims) && r in Execute(s0, events).runs
    ensures var s := Execute(s0, events);
      s.runs[r].phase != Rollback &&
      (r !in Losers(s0, events, ToClaims) && (s.runs[r].phase.ClaimSeeker? || s.runs[r].phase.ClaimPartner?) ==>
         Reply(s, s.runs[r]))
  {
    VerifiedOkAlways(s0, events);
  }

  /** Without any lock expiry nobody loses a lock, and both results hold of all runs. */
  lemma {:induction false} NobodyLosesWithoutExpiry(s: State, events: seq<Event>, x: Extent)
    requires forall u :: LockExpires(u) !in events
    ensures Losers(s, events, x) == {} && OnlyTheCrashedLoseLocks(s, events, x)
  {
    if events != [] {
      assert events[|events| - 1] in events;
      forall i: nat | i < |events| ensures Losers(s, events[..i], x) == {} {
        assert forall e | e in events[..i] :: e in events;
        NobodyLosesWithoutExpiry(s, events[..i], x);
      }
      assert Losers(s, events[..|events| - 1], x) == {};
    }
  }

  // ---------------------------------------------------------------------------------------
  // No lock is left behind
  // ---------------------------------------------------------------------------------------

  /** Where a run may have a lock: from the command that takes it up to the command that hands it back. */
  predicate MayHold(run: Run, u: UserId) {
    (u == run.First() &&
     (run.phase.LockSecond? || run.phase.DropFirst? || Verifying(run.phase) || Writing(run.phase) ||
      run.phase.UnlockFirst?)) ||
    (u == run.Second() &&
     (Verifying(run.phase) || Writing(run.phase) || run.phase.UnlockFirst? || run.phase.UnlockSecond?))
  }

  predicate Owns(s: State, r: nat, u: UserId) {
    r in s.runs && u in s.locks && s.runs[r].token == s.locks[u] && MayHold(s.runs[r], u)
  }

  /** Every lock that is set belongs to a run that has yet to hand it back. */
  ghost predicate LocksOwned(s: State) { forall u | u in s.locks :: exists r :: Owns(s, r, u) }

  /** A run's own lock is still its own after its next command, or gone. */
  lemma OwnLockStaysOwned(s: State, r: nat, u: UserId)
    requires RunsOk(s) && Owns(s, r, u) && u in AdvanceRun(s, r).locks
    ensures Owns(AdvanceRun(s, r), r, u)
  {
    assert RunOk(s.runs[r]);
    assert NextRun(s.runs[r], Reply(s, s.runs[r])).token == s.runs[r].token;
  }

  lemma NewLockIsOwned(s: State, r: nat, u: UserId)
    requires RunsOk(s) && r in s.runs && u !in s.locks && u in AdvanceRun(s, r).locks
    ensures Owns(AdvanceRun(s, r), r, u)
  {
    assert RunOk(s.runs[r]);
  }

  lemma LocksOwnedAdvance(s: State, r: nat)
    requires RunsOk(s) && LocksOwned(s) && r in s.runs
    ensures LocksOwned(AdvanceRun(s, r))
  {
    var s' := AdvanceRun(s, r);
    forall u | u in s'.locks ensures exists q :: Owns(s', q, u) {
      if u !in s.locks {
        NewLockIsOwned(s, r, u);
      } else {
        LockEffect(s.locks, s.runs[r], u);
        var q :| Owns(s, q, u);
        if q == r {
          OwnLockStaysOwned(s, r, u);
        } else {
          assert Owns(s', q, u);
        }
      }
    }
  }

  lemma LocksOwnedStep(s: State, e: Event)
    requires RunsOk(s) && LocksOwned(s)
    ensures LocksOwned(Next(s, e))
  {
    if e.Advance? && e.run in s.runs {
      LocksOwnedAdvance(s, e.run);
    } else {
      var s' := Next(s, e);
      forall u | u in s'.locks ensures exists q :: Owns(s', q, u) {
        var q :| Owns(s, q, u);
        assert Owns(s', q, u);
      }
    }
  }

  lemma {:induction false} LocksOwnedAlways(s: State, events: seq<Event>)
    requires RunsOk(s) && LocksOwned(s)
    ensures LocksOwned(Execute(s, events))
  {
    if events != [] {
      LocksOwnedAlways(s, events[..|events| - 1]);
      RunsOkAlways(s, events[..|events| - 1]);
      LocksOwnedStep(Execute(s, events[..|events| - 1]), events[|events| - 1]);
    }
  }

  /**
   No lock is left behind. In every run, with every kind of expiry, a key that holds the token of a
   run is one of its two locks, and the run is still between taking it and handing it back. So a run
   that has failed to lock, is about to announce or is over holds none.
  */
  lemma NoLockIsLeftBehind(s0: State, events: seq<Event>, r: nat, u: UserId)
    requires Initial(s0) && r in Execute(s0, events).runs
    requires u in Execute(s0, events).locks && Execute(s0, events).locks[u] == Execute(s0, events).runs[r].token
    ensures var run := Execute(s0, events).runs[r];
      MayHold(run, u) && run.Involves(u) &&
      !run.phase.LockFirst? && !run.phase.Announce? && !run.phase.Finished?
  {
    LocksOwnedAlways(s0, events);
    RunsOkAlways(s0, events);
    OwnerMayHold(Execute(s0, events), r, u);
  }

  lemma OwnerMayHold(s: State, r: nat, u: UserId)
    requires RunsOk(s) && LocksOwned(s) && r in s.runs && u in s.locks && s.locks[u] == s.runs[r].token
    ensures MayHold(s.runs[r], u)
  {
    var q :| Owns(s, q, u);
    assert q == r;
  }

  /** Event `i` is a second try-lock that succeeds: that attempt now has both locks. */
  predicate Acquires(s: State, events: seq<Event>, i: nat)
    requires i < |events|
  {
    AcquiresNow(Execute(s, events[..i]), events[i])
  }

  predicate AcquiresNow(s: State, e: Event) {
    e.Advance? && e.run in s.runs && s.runs[e.run].phase == LockSecond && Reply(s, s.runs[e.run])
  }

  /** Event `i` is the first try-lock of some attempt. */
  predicate Attempts(s: State, events: seq<Event>, i: nat)
    requires i < |events|
  {
    AttemptsNow(Execute(s, events[..i]), events[i])
  }

  predicate AttemptsNow(s: State, e: Event) {
    e.Advance? && e.run in s.runs && s.runs[e.run].phase == LockFirst
  }

  /** The greatest locked id is held by an attempt that has yet to try its second lock. */
  ghost predicate GreatestIsPending(s: State) {
    exists r :: r in s.runs && s.runs[r].phase == LockSecond && forall v | v in s.locks :: v <= s.runs[r].First()
  }

  /** Short of an acquisition, only a first try-lock adds a lock. */
  lemma LockedIsOld(s: State, e: Event, v: UserId)
    requires !AcquiresNow(s, e) && v in Next(s, e).locks && v !in s.locks
    ensures AttemptsNow(s, e) && v == s.runs[e.run].First()
  {
  }

  lemma GreatestIsPendingStep(s: State, e: Event)
    requires RunsOk(s) && GreatestIsPending(s) && !AcquiresNow(s, e)
    ensures GreatestIsPending(Next(s, e))
  {
    var r :| r in s.runs && s.runs[r].phase == LockSecond && forall v | v in s.locks :: v <= s.runs[r].First();
    var s' := Next(s, e);
    assert RunOk(s.runs[r]) && s.runs[r].Second() !in s.locks;
    assert e != Advance(r);
    assert r in s'.runs && s'.runs[r] == s.runs[r];
    forall v | v in s'.locks ensures v in s.locks || (AttemptsNow(s, e) && v == s.runs[e.run].First()) {
      if v !in s.locks { LockedIsOld(s, e, v); }
    }
    if AttemptsNow(s, e) && s.runs[e.run].First() > s.runs[r].First() {
      AttemptTakesLock(s, e);
      assert forall v | v in s'.locks :: v <= s'.runs[e.run].First();
    }
  }

  lemma AttemptTakesLock(s: State, e: Event)
    requires AttemptsNow(s, e) && s.runs[e.run].First() !in s.locks
    ensures e.run in Next(s, e).runs && Next(s, e).runs[e.run] == s.runs[e.run].(phase := LockSecond)
  {
  }

  /** With every lock free, either nothing is locked yet or some attempt gets ahead. */
  lemma FirstAttemptGetsItsLock(s: State, e: Event)
    requires s.locks == map[] && !AcquiresNow(s, e)
    ensures if AttemptsNow(s, e) then GreatestIsPending(Next(s, e)) else Next(s, e).locks == map[]
  {
    if AttemptsNow(s, e) {
      var s' := Next(s, e);
      assert s'.runs[e.run].phase == LockSecond;
      assert forall v | v in s'.locks :: v <= s'.runs[e.run].First();
    }
  }

  lemma {:induction false} ProgressSoFar(s: State, events: seq<Event>)
    requires RunsOk(s) && s.locks == map[]
    requires forall i: nat | i < |events| :: !Acquires(s, events, i)
    ensures GreatestIsPending(Execute(s, events)) ||
            (Execute(s, events).locks == map[] && forall i: nat | i < |events| :: !Attempts(s, events, i))
  {
    if events != [] {
      var n := |events| - 1;
      var front, last := events[..n], events[n];
      forall i: nat | i < n
        ensures !Acquires(s, front, i) && Attempts(s, front, i) == Attempts(s, events, i)
      {
        assert front[..i] == events[..i];
        assert !Acquires(s, events, i);
      }
      ProgressSoFar(s, front);
      RunsOkAlways(s, front);
      assert !Acquires(s, events, n);
      if GreatestIsPending(Execute(s, front)) {
        GreatestIsPendingStep(Execute(s, front), last);
      } else {
        FirstAttemptGetsItsLock(Execute(s, front), last);
      }
    }
  }

  /**
   Ascending lock order gives collective progress, whether or not locks expire: from any moment at
   which all locks are free, if some attempt is made and no attempt is left waiting to try its
   second lock, then some attempt acquired both of its locks.
  */
  lemma SomeAttemptSucceeds(s: State, events: seq<Event>, attempt: nat)
    requires RunsOk(s) && s.locks == map[]
    requires attempt < |events| && Attempts(s, events, attempt)
    requires forall r | r in Execute(s, events).runs :: Execute(s, events).runs[r].phase != LockSecond
    ensures exists i: nat | i < |events| :: Acquires(s, events, i)
  {
    if forall i: nat | i < |events| :: !Acquires(s, events, i) {
      ProgressSoFar(s, events);
    }
  }

  // ---------------------------------------------------------------------------------------
  // One lock expiry is enough to need the rollback
  // ---------------------------------------------------------------------------------------

  lemma ExecuteOne(s: State, a: Event)
    ensures Execute(s, [a]) == Next(s, a)
  {
    assert [a][..0] == [];
  }

  lemma ExecuteTwo(s: State, a: Event, b: Event)
    ensures Execute(s, [a, b]) == Next(Next(s, a), b)
  {
    ExecuteOne(s, a);
    assert [a, b][..1] == [a];
  }

  lemma Compose(s: State, a: seq<Event>, mid: State, b: seq<Event>, end: State)
    requires Execute(s, a) == mid && Execute(mid, b) == end
    ensures Execute(s, a + b) == end
  {
    ExecuteConcat(s, a, b);
  }

  lemma LastRunCounts(s: State, r: nat, earlier: Run, later: Run)
    ensures s.(runs := s.runs[r := earlier]).(runs := s.runs[r := earlier][r := later]) ==
            s.(runs := s.runs[r := later])
  {
    assert s.runs[r := earlier][r := later] == s.runs[r := later];
  }

  /** A locking or verifying step changes only the run itself and the locks. */
  lemma QuietStep(s: State, r: nat)
    requires r in s.runs && (s.runs[r].phase.LockFirst? || s.runs[r].phase.LockSecond? || Verifying(s.runs[r].phase))
    ensures Next(s, Advance(r)) == s.(locks := LocksAfter(s.locks, s.runs[r]),
                                      runs := s.runs[r := NextRun(s.runs[r], Reply(s, s.runs[r]))])
  {
  }

  lemma TwoQuietSteps(s: State, r: nat, mid: Run, end: Run, locks: map<UserId, Token>)
    requires r in s.runs && (s.runs[r].phase.LockFirst? || s.runs[r].phase.LockSecond? || Verifying(s.runs[r].phase))
    requires mid.phase.LockFirst? || mid.phase.LockSecond? || Verifying(mid.phase)
    requires mid == NextRun(s.runs[r], Reply(s, s.runs[r]))
    requires end == NextRun(mid, Reply(s.(locks := LocksAfter(s.locks, s.runs[r])), mid))
    requires locks == LocksAfter(LocksAfter(s.locks, s.runs[r]), mid)
    ensures Execute(s, [Advance(r), Advance(r)]) == s.(locks := locks, runs := s.runs[r := end])
  {
    var locked := s.(locks := LocksAfter(s.locks, s.runs[r]));
    var s1 := locked.(runs := s.runs[r := mid]);
    QuietStep(s, r);
    ReplyIgnoresRuns(locked, s1.runs, mid);
    QuietStep(s1, r);
    LastRunCounts(s.(locks := locks), r, mid, end);
    ExecuteTwo(s, Advance(r), Advance(r));
  }

  lemma ReplyIgnoresRuns(s: State, runs: map<nat, Run>, run: Run)
    ensures Reply(s.(runs := runs), run) == Reply(s, run)
  {
  }

  lemma UndisturbedLocking(s: State, r: nat)
    requires r in s.runs && RunOk(s.runs[r]) && s.runs[r].phase == LockFirst
    requires s.runs[r].seeker !in s.locks && s.runs[r].partner !in s.locks
    ensures Execute(s, [Advance(r), Advance(r)]) ==
      s.(locks := s.locks[s.runs[r].First() := s.runs[r].token][s.runs[r].Second() := s.runs[r].token],
         runs := s.runs[r := s.runs[r].(phase := CheckQueuedSeeker)])
  {
    var run := s.runs[r];
    TwoQuietSteps(s, r, run.(phase := LockSecond), run.(phase := CheckQueuedSeeker),
                  s.locks[run.First() := run.token][run.Second() := run.token]);
  }

  lemma UndisturbedQueueChecks(s: State, r: nat)
    requires r in s.runs && s.runs[r].phase == CheckQueuedSeeker
    requires s.runs[r].seeker in s.queued && s.runs[r].partner in s.queued
    ensures Execute(s, [Advance(r), Advance(r)]) ==
            s.(runs := s.runs[r := s.runs[r].(phase := CheckBusySeeker, verified := true)])
  {
    var run := s.runs[r];
    TwoQuietSteps(s, r, run.(phase := CheckQueuedPartner, verified := true),
                  run.(phase := CheckBusySeeker, verified := true), s.locks);
  }

  lemma UndisturbedBusyChecks(s: State, r: nat)
    requires r in s.runs && s.runs[r].phase == CheckBusySeeker && s.runs[r].verified
    requires s.runs[r].seeker !in s.occupancy && s.runs[r].partner !in s.occupancy
    ensures Execute(s, [Advance(r), Advance(r)]) == s.(runs := s.runs[r := s.runs[r].(phase := PickId)])
  {
    var run := s.runs[r];
    TwoQuietSteps(s, r, run.(phase := CheckBusyPartner), run.(phase := PickId), s.locks);
  }

  lemma UndisturbedChecking(s: State, r: nat, go: seq<Event>)
    requires r in s.runs && s.runs[r].phase == CheckQueuedSeeker && go == [Advance(r), Advance(r)]
    requires s.runs[r].seeker in s.queued && s.runs[r].partner in s.queued
    requires s.runs[r].seeker !in s.occupancy && s.runs[r].partner !in s.occupancy
    ensures Execute(s, go + go) == s.(runs := s.runs[r := s.runs[r].(phase := PickId, verified := true)])
  {
    var half := s.runs[r].(phase := CheckBusySeeker, verified := true);
    var s2 := s.(runs := s.runs[r := half]);
    UndisturbedQueueChecks(s, r);
    UndisturbedBusyChecks(s2, r);
    LastRunCounts(s, r, half, half.(phase := PickId));
    Compose(s, go, s2, go, s.(runs := s.runs[r := half.(phase := PickId)]));
  }

  predicate OnlyMoves(events: seq<Event>, r: nat) { forall e | e in events :: Moves(e, r) }

  /** An undisturbed run with free locks and two waiting, free users reaches its claims. */
  lemma UndisturbedRunReachesClaims(s: State, r: nat, id: MatchId) returns (events: seq<Event>)
    requires r in s.runs && RunOk(s.runs[r]) && s.runs[r].phase == LockFirst
    requires s.runs[r].seeker !in s.locks && s.runs[r].partner !in s.locks
    requires s.runs[r].seeker in s.queued && s.runs[r].partner in s.queued
    requires s.runs[r].seeker !in s.occupancy && s.runs[r].partner !in s.occupancy
    requires id !in s.makers
    ensures OnlyMoves(events, r)
    ensures Execute(s, events) ==
      s.(locks := s.locks[s.runs[r].First() := s.runs[r].token][s.runs[r].Second() := s.runs[r].token],
         runs := s.runs[r := s.runs[r].(phase := ClaimSeeker, verified := true, id := Some(id))],
         makers := s.makers[id := r])
  {
    var run, go := s.runs[r], [Advance(r), Advance(r)];
    var picked := run.(phase := PickId, verified := true);
    var locked := s.(locks := s.locks[run.First() := run.token][run.Second() := run.token]);
    var s6 := locked.(runs := s.runs[r := picked]);
    UndisturbedVerification(s, r, go);
    var claiming := picked.(phase := ClaimSeeker, id := Some(id));
    LastRunCounts(locked, r, picked, claiming);
    ExecuteOne(s6, DrawId(r, id));
    Compose(s, go + (go + go), s6, [DrawId(r, id)],
            locked.(runs := s.runs[r := claiming], makers := s.makers[id := r]));
    events := go + (go + go) + [DrawId(r, id)];
  }

  lemma UndisturbedVerification(s: State, r: nat, go: seq<Event>)
    requires r in s.runs && RunOk(s.runs[r]) && s.runs[r].phase == LockFirst && go == [Advance(r), Advance(r)]
    requires s.runs[r].seeker !in s.locks && s.runs[r].partner !in s.locks
    requires s.runs[r].seeker in s.queued && s.runs[r].partner in s.queued
    requires s.runs[r].seeker !in s.occupancy && s.runs[r].partner !in s.occupancy
    ensures Execute(s, go + (go + go)) ==
      s.(locks := s.locks[s.runs[r].First() := s.runs[r].token][s.runs[r].Second() := s.runs[r].token],
         runs := s.runs[r := s.runs[r].(phase := PickId, verified := true)])
  {
    var run := s.runs[r];
    var locked := s.(locks := s.locks[run.First() := run.token][run.Second() := run.token]);
    var s2 := locked.(runs := s.runs[r := run.(phase := CheckQueuedSeeker)]);
    UndisturbedLocking(s, r);
    UndisturbedChecking(s2, r, go);
    var picked := run.(phase := PickId, verified := true);
    LastRunCounts(locked, r, run.(phase := CheckQueuedSeeker), picked);
    Compose(s, go, s2, go + go, locked.(runs := s.runs[r := picked]));
  }

  predicate WindingDown(phase: Phase) {
    phase.LeaveSeeker? || phase.LeavePartner? || phase.UnlockFirst? || phase.UnlockSecond? || phase.Announce?
  }

  function StepsLeft(phase: Phase): nat {
    match phase
    case LeaveSeeker => 5
    case LeavePartner => 4
    case UnlockFirst => 3
    case UnlockSecond => 2
    case Announce => 1
    case _ => 0
  }

  /** What is left to do of leaving the queue, of unlocking and of announcing, from this phase on. */
  function QueuedAtEnd(queued: set<UserId>, run: Run): set<UserId> {
    match run.phase
    case LeaveSeeker => queued - {run.seeker} - {run.partner}
    case LeavePartner => queued - {run.partner}
    case _ => queued
  }

  function LocksAtEnd(locks: map<UserId, Token>, run: Run): map<UserId, Token> {
    match run.phase
    case LeaveSeeker | LeavePartner | UnlockFirst =>
      CompareAndDelete(CompareAndDelete(locks, run.First(), run.token), run.Second(), run.token)
    case UnlockSecond => CompareAndDelete(locks, run.Second(), run.token)
    case _ => locks
  }

  lemma WindingStep(s: State, r: nat)
    requires r in s.runs && s.runs[r].paired && s.runs[r].id.Some? && WindingDown(s.runs[r].phase)
    ensures var run, s1 := s.runs[r], Next(s, Advance(r));
      s1 == s.(runs := s.runs[r := s1.runs[r]], queued := s1.queued, locks := s1.locks, registry := s1.registry) &&
      s1.runs[r] == run.(phase := s1.runs[r].phase) && StepsLeft(s1.runs[r].phase) == StepsLeft(run.phase) - 1 &&
      QueuedAtEnd(s1.queued, s1.runs[r]) == QueuedAtEnd(s.queued, run) &&
      LocksAtEnd(s1.locks, s1.runs[r]) == LocksAtEnd(s.locks, run) &&
      (if s1.runs[r].phase == Finished
       then s1.registry == s.registry[run.id.value := Pair(run.seeker, run.partner)]
       else WindingDown(s1.runs[r].phase) && s1.registry == s.registry)
  {
  }

  /** Whatever the store looks like, a paired run that is left alone comes to its end, and this is it. */
  lemma {:induction false} PairedRunWindsDown(s: State, r: nat) returns (events: seq<Event>)
    requires r in s.runs && s.runs[r].paired && s.runs[r].id.Some? && WindingDown(s.runs[r].phase)
    ensures OnlyMoves(events, r)
    ensures var run := s.runs[r];
      Execute(s, events) ==
        s.(runs := s.runs[r := run.(phase := Finished)], queued := QueuedAtEnd(s.queued, run),
           locks := LocksAtEnd(s.locks, run), registry := s.registry[run.id.value := Pair(run.seeker, run.partner)])
    decreases StepsLeft(s.runs[r].phase)
  {
    var s1 := Next(s, Advance(r));
    WindingStep(s, r);
    ExecuteOne(s, Advance(r));
    events := [Advance(r)];
    if s1.runs[r].phase != Finished {
      var rest := PairedRunWindsDown(s1, r);
      ExecuteConcat(s, events, rest);
      events := events + rest;
      LastRunCounts(s, r, s1.runs[r], s.runs[r].(phase := Finished));
    }
  }

  lemma FreeUsersAreClaimed(s: State, r: nat)
    requires r in s.runs && RunOk(s.runs[r]) && s.runs[r].phase == ClaimSeeker
    requires s.runs[r].seeker !in s.occupancy && s.runs[r].partner !in s.occupancy
    ensures var run, s' := s.runs[r], Execute(s, [Advance(r), Advance(r)]);
      run.id.Some? && s' == s.(occupancy := s.occupancy[run.seeker := run.id.value][run.partner := run.id.value],
                               runs := s.runs[r := run.(phase := LeaveSeeker, paired := true)])
  {
    var run := s.runs[r];
    var half := run.(phase := ClaimPartner);
    var s1 := s.(occupancy := s.occupancy[run.seeker := run.id.value], runs := s.runs[r := half]);
    assert Next(s, Advance(r)) == s1;
    LastRunCounts(s, r, half, run.(phase := LeaveSeeker, paired := true));
    ExecuteTwo(s, Advance(r), Advance(r));
  }

  /**
   An undisturbed run with free locks and two waiting, free users pairs them: by its own steps alone
   it claims both, takes both out of the queue, registers the match and leaves no lock behind.
  */
  lemma UndisturbedRunPairs(s: State, r: nat, id: MatchId) returns (events: seq<Event>)
    requires r in s.runs && RunOk(s.runs[r]) && s.runs[r].phase == LockFirst
    requires s.runs[r].seeker !in s.locks && s.runs[r].partner !in s.locks
    requires s.runs[r].seeker in s.queued && s.runs[r].partner in s.queued
    requires s.runs[r].seeker !in s.occupancy && s.runs[r].partner !in s.occupancy
    requires id !in s.makers
    ensures OnlyMoves(events, r)
    ensures var run := s.runs[r];
      Execute(s, events) ==
        s.(occupancy := s.occupancy[run.seeker := id][run.partner := id],
           queued := s.queued - {run.seeker, run.partner},
           registry := s.registry[id := Pair(run.seeker, run.partner)],
           runs := s.runs[r := run.(phase := Finished, verified := true, id := Some(id), paired := true)],
           makers := s.makers[id := r])
  {
    var toClaim := UndisturbedRunReachesClaims(s, r, id);
    var s1 := Execute(s, toClaim);
    var rest := ClaimingRunPairs(s1, r);
    ExecuteConcat(s, toClaim, rest);
    events := toClaim + rest;
    LastRunCounts(s, r, s1.runs[r], Execute(s, events).runs[r]);
    var run := s.runs[r];
    LocksAreHandedBack(s.locks, run);
    assert s.queued - {run.seeker} - {run.partner} == s.queued - {run.seeker, run.partner};
  }

  lemma LocksAreHandedBack(locks: map<UserId, Token>, run: Run)
    requires run.seeker != run.partner && run.seeker !in locks && run.partner !in locks
    ensures var taken := locks[run.First() := run.token][run.Second() := run.token];
      CompareAndDelete(CompareAndDelete(taken, run.First(), run.token), run.Second(), run.token) == locks
  {
  }

  lemma ClaimingRunPairs(s: State, r: nat) returns (events: seq<Event>)
    requires r in s.runs && RunOk(s.runs[r]) && s.runs[r].phase == ClaimSeeker
    requires s.runs[r].seeker !in s.occupancy && s.runs[r].partner !in s.occupancy
    ensures OnlyMoves(events, r) && s.runs[r].id.Some?
    ensures var run := s.runs[r];
      Execute(s, events) ==
        s.(occupancy := s.occupancy[run.seeker := run.id.value][run.partner := run.id.value],
           queued := s.queued - {run.seeker} - {run.partner},
           locks := CompareAndDelete(CompareAndDelete(s.locks, run.First(), run.token), run.Second(), run.token),
           registry := s.registry[run.id.value := Pair(run.seeker, run.partner)],
           runs := s.runs[r := run.(phase := Finished, paired := true)])
  {
    var claims, claimed := [Advance(r), Advance(r)], s.runs[r].(phase := LeaveSeeker, paired := true);
    FreeUsersAreClaimed(s, r);
    var rest := PairedRunWindsDown(Execute(s, claims), r);
    ExecuteConcat(s, claims, rest);
    events := claims + rest;
    LastRunCounts(s, r, claimed, claimed.(phase := Finished));
  }

  /** Why all-or-nothing needs a match to keep its keys: users 1 and 2 are paired, and one key expires. */
  lemma OneExpirySplitsAMatch(s0: State) returns (events: seq<Event>)
    requires Initial(s0) && {1, 2} <= s0.queued
    ensures var s := Execute(s0, events);
      101 in s.makers && Settled(s, 101) && Holders(s, 101) == {2}
  {
    ExecuteOne(s0, Select(1, 1, 2, 11));
    var s1 := Next(s0, Select(1, 1, 2, 11));
    var pairing := UndisturbedRunPairs(s1, 1, 101);
    var s2 := Execute(s1, pairing);
    ExecuteOne(s2, OccupancyExpires(1));
    ExecuteConcat(s1, pairing, [OccupancyExpires(1)]);
    ExecuteConcat(s0, [Select(1, 1, 2, 11)], pairing + [OccupancyExpires(1)]);
    events := [Select(1, 1, 2, 11)] + (pairing + [OccupancyExpires(1)]);
    assert s2.occupancy == map[1 := 101, 2 := 101];
    assert Next(s2, OccupancyExpires(1)).occupancy == map[2 := 101];
  }

  /** Run 2 claims user 2 first; run 1 gets user 1, finds 2 taken and must undo its own claim. */
  lemma ClaimsCollide(s: State)
    requires 1 in s.runs && s.runs[1] == Run(1, 2, 11, ClaimSeeker, true, Some(101), false)
    requires 2 in s.runs && s.runs[2] == Run(2, 3, 12, ClaimSeeker, true, Some(102), false)
    requires s.occupancy == map[]
    ensures var s' := Next(Next(Next(s, Advance(2)), Advance(1)), Advance(1));
      1 in s'.runs && s'.runs[1].phase == Rollback && s'.occupancy == map[1 := 101, 2 := 102]
  {
    var s1 := Next(s, Advance(2));
    assert s1.occupancy == map[2 := 102] && s1.runs[1] == s.runs[1];
    var s2 := Next(s1, Advance(1));
    assert s2.occupancy == map[1 := 101, 2 := 102] && s2.runs[1] == s.runs[1].(phase := ClaimPartner);
  }

  /** From the moment run 1 is about to claim 1 and 2, with the lock of user 2 gone. */
  lemma LateClaimMeetsEarlyClaim(s: State) returns (events: seq<Event>)
    requires 1 in s.runs && s.runs[1] == Run(1, 2, 11, ClaimSeeker, true, Some(101), false)
    requires 2 in s.runs && s.runs[2] == Run(2, 3, 12, LockFirst, false, None, false)
    requires s.locks == map[1 := 11] && s.occupancy == map[] && {2, 3} <= s.queued && 102 !in s.makers
    ensures 1 in Execute(s, events).runs && Execute(s, events).runs[1].phase == Rollback
    ensures Execute(s, events).occupancy == map[1 := 101, 2 := 102]
  {
    var toClaim := UndisturbedRunReachesClaims(s, 2, 102);
    var s1 := Execute(s, toClaim);
    ClaimsCollide(s1);
    ExecuteTwo(s1, Advance(2), Advance(1));
    var s2 := Next(Next(s1, Advance(2)), Advance(1));
    ExecuteOne(s2, Advance(1));
    Compose(s1, [Advance(2), Advance(1)], s2, [Advance(1)], Next(s2, Advance(1)));
    Compose(s, toClaim, s1, [Advance(2), Advance(1)] + [Advance(1)], Next(s2, Advance(1)));
    events := toClaim + ([Advance(2), Advance(1)] + [Advance(1)]);
  }

  /**
   Run 1 pairs users 1 and 2, run 2 pairs users 2 and 3. When the lock of user 2 expires under
   run 1 just before its claims, both verify user 2 as free; run 2 claims 2 first and run 1,
   holding user 1 already, must roll back. Only NX keeps user 2 in a single match.
  */
  lemma RollbackAfterOneLockExpiry(s0: State) returns (events: seq<Event>)
    requires Initial(s0) && {1, 2, 3} <= s0.queued
    ensures 1 in Execute(s0, events).runs && Execute(s0, events).runs[1].phase == Rollback
    ensures Execute(s0, events).occupancy == map[1 := 101, 2 := 102]
  {
    var first := [Select(1, 1, 2, 11), Select(2, 2, 3, 12)];
    ExecuteTwo(s0, Select(1, 1, 2, 11), Select(2, 2, 3, 12));
    var s1 := Execute(s0, first);
    assert s1.runs[1] == Run(1, 2, 11, LockFirst, false, None, false);
    var toClaim := UndisturbedRunReachesClaims(s1, 1, 101);
    ExecuteConcat(s0, first, toClaim);
    var s2 := Execute(s1, toClaim);
    ExecuteOne(s2, LockExpires(2));
    ExecuteConcat(s0, first + toClaim, [LockExpires(2)]);
    var s3 := Next(s2, LockExpires(2));
    assert s3.locks == map[1 := 11];
    var rest := LateClaimMeetsEarlyClaim(s3);
    events := first + toClaim + [LockExpires(2)] + rest;
    ExecuteConcat(s0, first + toClaim + [LockExpires(2)], rest);
  }
}
