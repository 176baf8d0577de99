/**
 What every interleaving of runs, teardowns and key expiries keeps.

 `Inv` survives every event, lock and occupancy expiry included. `Persistent` is the extra part
 that needs the keys of one match not to expire; together they give all-or-nothing pairing.
 */
module PairingSafety {
  import opened Common
  import opened Pairing

  // ---------------------------------------------------------------------------------------
  // Vocabulary
  // ---------------------------------------------------------------------------------------

  predicate Holds(s: State, u: UserId, m: MatchId) { u in s.occupancy && s.occupancy[u] == m }

  function Holders(s: State, m: MatchId): set<UserId> {
    set u | u in s.occupancy && s.occupancy[u] == m
  }

  /** The run has written its id into `u`'s occupancy key and has not rolled it back. */
  predicate Claimed(run: Run, u: UserId) {
    (u == run.seeker && (run.paired || run.phase == ClaimPartner || run.phase == Rollback)) ||
    (u == run.partner && run.paired)
  }

  /** The run is between its first claim and the outcome of its second. */
  predicate Committing(run: Run) { run.phase == ClaimPartner || run.phase == Rollback }

  /** The teardown has already executed the compare-and-delete for `u`. */
  predicate Released(td: Teardown, u: UserId) {
    td.pair.Some? &&
    ((u == td.pair.value.userA && (td.phase.ReleaseB? || td.phase.DropRegistry? || td.phase.Ended?)) ||
     (u == td.pair.value.userB && (td.phase.DropRegistry? || td.phase.Ended?)))
  }

  /** Some teardown of `m` has released `u`. */
  ghost predicate TornDown(s: State, m: MatchId, u: UserId) {
    exists t :: t in s.teardowns && s.teardowns[t].matchId == m && Released(s.teardowns[t], u)
  }

  /** No run is between the claims of `m`, no teardown is between the releases of `m`. */
  ghost predicate Settled(s: State, m: MatchId) {
    (m in s.makers && s.makers[m] in s.runs ==> !Committing(s.runs[s.makers[m]])) &&
    (forall t | t in s.teardowns && s.teardowns[t].matchId == m :: s.teardowns[t].phase != ReleaseB)
  }

  // ---------------------------------------------------------------------------------------
  // The invariant
  // ---------------------------------------------------------------------------------------

  predicate BeforeId(phase: Phase) {
    phase.LockFirst? || phase.LockSecond? || phase.DropFirst? || phase.CheckQueuedSeeker? ||
    phase.CheckQueuedPartner? || phase.CheckBusySeeker? || phase.CheckBusyPartner? || phase.PickId?
  }

  predicate HasDrawn(phase: Phase) {
    phase.ClaimSeeker? || phase.ClaimPartner? || phase.Rollback? ||
    phase.LeaveSeeker? || phase.LeavePartner? || phase.Announce?
  }

  predicate RunOk(run: Run) {
    run.seeker != run.partner &&
    (HasDrawn(run.phase) ==> run.id.Some?) &&
    (BeforeId(run.phase) ==> run.id.None?) &&
    (run.paired ==> run.id.Some? &&
                    (run.phase.LeaveSeeker? || run.phase.LeavePartner? || run.phase.UnlockFirst? ||
                     run.phase.UnlockSecond? || run.phase.Announce? || run.phase.Finished?)) &&
    (run.phase.LeaveSeeker? || run.phase.LeavePartner? || run.phase.Announce? ==> run.paired)
  }

  ghost predicate RunsOk(s: State) {
    (forall r | r in s.runs :: RunOk(s.runs[r])) &&
    (forall r, q | r in s.runs && q in s.runs && r != q :: s.runs[r].token != s.runs[q].token)
  }

  /** Match ids are unique: an id belongs to exactly the run that drew it. */
  ghost predicate IdsOk(s: State) {
    (forall m | m in s.makers :: s.makers[m] in s.runs && s.runs[s.makers[m]].id == Some(m)) &&
    (forall r | r in s.runs && s.runs[r].id.Some? ::
       s.runs[r].id.value in s.makers && s.makers[s.runs[r].id.value] == r)
  }

  /** Every occupancy key holds the id of a run that has claimed exactly that user. */
  ghost predicate OccupancyOk(s: State)
    requires IdsOk(s)
  {
    forall u | u in s.occupancy ::
      s.occupancy[u] in s.makers && Claimed(s.runs[s.makers[s.occupancy[u]]], u)
  }

  /** `pair` is the seeker and partner of a run that drew `m`, paired them and is over. */
  ghost predicate IsMatch(s: State, m: MatchId, pair: Pair) {
    m in s.makers && s.makers[m] in s.runs &&
    var run := s.runs[s.makers[m]];
    run.paired && run.phase == Finished && pair == Pair(run.seeker, run.partner)
  }

  ghost predicate RegistryOk(s: State) {
    (forall m | m in s.registry :: IsMatch(s, m, s.registry[m])) &&
    (forall t | t in s.teardowns ::
       (s.teardowns[t].pair.Some? ==> IsMatch(s, s.teardowns[t].matchId, s.teardowns[t].pair.value)) &&
       (s.teardowns[t].phase.ReleaseA? || s.teardowns[t].phase.ReleaseB? || s.teardowns[t].phase.DropRegistry? ==>
          s.teardowns[t].pair.Some?) &&
       (s.teardowns[t].phase == ReadRegistry ==> s.teardowns[t].pair.None?))
  }

  /** What a teardown has released stays released: nobody claims under that id again. */
  ghost predicate ReleasesStick(s: State) {
    forall t, u | t in s.teardowns && Released(s.teardowns[t], u) :: !Holds(s, u, s.teardowns[t].matchId)
  }

  ghost predicate Inv(s: State) {
    RunsOk(s) && IdsOk(s) && OccupancyOk(s) && RegistryOk(s) && ReleasesStick(s)
  }

  /** A claim of match `m` is gone only because a teardown of `m` released it. */
  ghost predicate Persistent(s: State, m: MatchId) {
    m in s.makers && s.makers[m] in s.runs ==>
      forall u | Claimed(s.runs[s.makers[m]], u) :: Holds(s, u, m) || TornDown(s, m, u)
  }

  /** An occupancy key expires that holds `m`. */
  predicate ExpiresUnder(s: State, e: Event, m: MatchId) { e.OccupancyExpires? && Holds(s, e.user, m) }

  /** Every other key may expire at any time, and so may these two users' keys in other matches. */
  ghost predicate KeepsKeysOf(s: State, events: seq<Event>, m: MatchId) {
    forall i: nat | i < |events| :: !ExpiresUnder(Execute(s, events[..i]), events[i], m)
  }

  // ---------------------------------------------------------------------------------------
  // Preservation, one invariant at a time
  // ---------------------------------------------------------------------------------------

  lemma NextRunOk(run: Run, reply: bool)
    requires RunOk(run)
    ensures RunOk(NextRun(run, reply)) && NextRun(run, reply).token == run.token
  {
  }

  lemma RunsOkAdvance(s: State, r: nat)
    requires RunsOk(s) && r in s.runs
    ensures RunsOk(AdvanceRun(s, r))
  {
    NextRunOk(s.runs[r], Reply(s, s.runs[r]));
  }

  lemma RunsOkDraw(s: State, r: nat, id: MatchId)
    requires RunsOk(s) && CanDraw(s, r, id)
    ensures RunsOk(Next(s, DrawId(r, id)))
  {
    assert RunOk(s.runs[r]);
  }

  lemma RunsOkStep(s: State, e: Event)
    requires RunsOk(s)
    ensures RunsOk(Next(s, e))
  {
    match e
    case Advance(r) => if r in s.runs { RunsOkAdvance(s, r); }
    case DrawId(r, id) => if CanDraw(s, r, id) { RunsOkDraw(s, r, id); }
    case _ =>
  }

  /** A run keeps its users and its token; id and success are written once; a finished run rests. */
  lemma RunsKeepIdentity(s: State, e: Event, r: nat)
    requires r in s.runs && RunOk(s.runs[r])
    ensures r in Next(s, e).runs
    ensures var run, run' := s.runs[r], Next(s, e).runs[r];
      run'.seeker == run.seeker && run'.partner == run.partner && run'.token == run.token &&
      (run.id.Some? ==> run'.id == run.id) && (run.paired ==> run'.paired) &&
      (run.phase == Finished ==> run' == run)
  {
  }

  lemma IdsOkAdvance(s: State, r: nat)
    requires RunsOk(s) && IdsOk(s) && r in s.runs
    ensures IdsOk(AdvanceRun(s, r))
  {
    var s' := AdvanceRun(s, r);
    assert s'.runs[r].id == s.runs[r].id;
  }

  lemma IdsOkDraw(s: State, r: nat, id: MatchId)
    requires RunsOk(s) && IdsOk(s) && CanDraw(s, r, id)
    ensures IdsOk(Next(s, DrawId(r, id)))
  {
    assert RunOk(s.runs[r]);
  }

  lemma IdsOkStep(s: State, e: Event)
    requires RunsOk(s) && IdsOk(s)
    ensures IdsOk(Next(s, e))
  {
    match e
    case Advance(r) => if r in s.runs { IdsOkAdvance(s, r); }
    case DrawId(r, id) => if CanDraw(s, r, id) { IdsOkDraw(s, r, id); }
    case _ =>
  }

  /** What one command of a run can do to the occupancy key of `u`. */
  lemma RunEffect(occupancy: map<UserId, MatchId>, run: Run, u: UserId)
    ensures var after := OccupancyAfter(occupancy, run);
      (u in occupancy && u in after ==> after[u] == occupancy[u]) &&
      (u !in occupancy && u in after ==> run.id == Some(after[u])) &&
      (u !in occupancy && u in after ==>
        (run.phase.ClaimSeeker? && u == run.seeker) || (run.phase.ClaimPartner? && u == run.partner)) &&
      (u in occupancy && u !in after ==> run.phase.Rollback? && run.id == Some(occupancy[u]) && u == run.seeker)
  {
  }

  lemma LockEffect(locks: map<UserId, Token>, run: Run, u: UserId)
    ensures var after := LocksAfter(locks, run);
      (u in locks && u in after ==> after[u] == locks[u]) &&
      (u in locks && u !in after ==> run.token == locks[u] && run.Involves(u))
  {
  }

  /** What one command of a teardown can do to the occupancy key of `u`. */
  lemma TeardownEffect(occupancy: map<UserId, MatchId>, td: Teardown, u: UserId)
    ensures var after := OccupancyAfterTeardown(occupancy, td);
      (u in after ==> u in occupancy && after[u] == occupancy[u]) &&
      (u in occupancy && u !in after ==> occupancy[u] == td.matchId && Released(NextTeardown(td, map[]), u))
  {
  }

  /** A step of one run leaves the claims of every other run alone; its own change with its writes. */
  lemma OccupancyOkAdvance(s: State, r: nat)
    requires RunsOk(s) && IdsOk(s) && OccupancyOk(s) && r in s.runs
    ensures IdsOk(AdvanceRun(s, r)) && OccupancyOk(AdvanceRun(s, r))
  {
    IdsOkStep(s, Advance(r));
    var s' := AdvanceRun(s, r);
    forall u | u in s'.occupancy
      ensures s'.occupancy[u] in s'.makers && Claimed(s'.runs[s'.makers[s'.occupancy[u]]], u)
    {
      var run := s.runs[r];
      if u !in s.occupancy || s'.occupancy[u] != s.occupancy[u] {
        assert run.id == Some(s'.occupancy[u]);
      } else {
        var q := s.makers[s.occupancy[u]];
        assert Claimed(s.runs[q], u);
      }
    }
  }

  lemma OccupancyOkStep(s: State, e: Event)
    requires RunsOk(s) && IdsOk(s) && OccupancyOk(s)
    ensures IdsOk(Next(s, e)) && OccupancyOk(Next(s, e))
  {
    IdsOkStep(s, e);
    if e.Advance? && e.run in s.runs {
      OccupancyOkAdvance(s, e.run);
    }
  }

  /** A completed match stays the same match. */
  lemma MatchesAreForever(s: State, e: Event, m: MatchId, pair: Pair)
    requires RunsOk(s) && IdsOk(s) && IsMatch(s, m, pair)
    ensures IsMatch(Next(s, e), m, pair)
  {
    RunsKeepIdentity(s, e, s.makers[m]);
  }

  lemma RegistryOkAdvance(s: State, r: nat)
    requires RunsOk(s) && IdsOk(s) && RegistryOk(s) && r in s.runs
    ensures RegistryOk(AdvanceRun(s, r))
  {
    var s' := AdvanceRun(s, r);
    forall m, pair | IsMatch(s, m, pair) ensures IsMatch(s', m, pair) {
      MatchesAreForever(s, Advance(r), m, pair);
    }
    assert RunOk(s.runs[r]);
    forall m | m in s'.registry ensures IsMatch(s', m, s'.registry[m]) {
      if m in s.registry && s'.registry[m] == s.registry[m] {
        assert IsMatch(s, m, s.registry[m]);
      }
    }
  }

  lemma RegistryOkTeardown(s: State, t: nat)
    requires RegistryOk(s) && t in s.teardowns
    ensures RegistryOk(StepTeardown(s, t))
  {
    var s' := StepTeardown(s, t);
    assert forall m, pair | IsMatch(s, m, pair) :: IsMatch(s', m, pair);
  }

  lemma RegistryCarriesOver(s: State, s': State)
    requires RegistryOk(s)
    requires forall m, pair | IsMatch(s, m, pair) :: IsMatch(s', m, pair)
    requires forall m | m in s'.registry :: m in s.registry && s'.registry[m] == s.registry[m]
    requires forall t | t in s'.teardowns ::
      if t in s.teardowns then s'.teardowns[t] == s.teardowns[t]
      else s'.teardowns[t].phase == ReadRegistry && s'.teardowns[t].pair == None
    ensures RegistryOk(s')
  {
  }

  lemma OthersKeepRegistry(s: State, e: Event)
    requires !e.Advance? && !e.AdvanceTeardown?
    ensures forall m | m in Next(s, e).registry :: m in s.registry && Next(s, e).registry[m] == s.registry[m]
    ensures forall t | t in Next(s, e).teardowns ::
      if t in s.teardowns then Next(s, e).teardowns[t] == s.teardowns[t]
      else Next(s, e).teardowns[t].phase == ReadRegistry && Next(s, e).teardowns[t].pair == None
  {
  }

  lemma RegistryOkStep(s: State, e: Event)
    requires RunsOk(s) && IdsOk(s) && RegistryOk(s)
    ensures RegistryOk(Next(s, e))
  {
    match e
    case Advance(r) => if r in s.runs { RegistryOkAdvance(s, r); }
    case AdvanceTeardown(t) => if t in s.teardowns { RegistryOkTeardown(s, t); }
    case _ =>
      forall m, pair | IsMatch(s, m, pair) ensures IsMatch(Next(s, e), m, pair) {
        MatchesAreForever(s, e, m, pair);
      }
      OthersKeepRegistry(s, e);
      RegistryCarriesOver(s, Next(s, e));
  }

  /** The run's own claim of `u` is still ahead of it. */
  predicate MayStillClaim(run: Run, u: UserId) {
    (u == run.seeker && (BeforeId(run.phase) || run.phase == ClaimSeeker)) ||
    (u == run.partner && (BeforeId(run.phase) || run.phase.ClaimSeeker? || run.phase.ClaimPartner?))
  }

  lemma NextRunPassed(run: Run, reply: bool, u: UserId)
    requires RunOk(run) && !MayStillClaim(run, u)
    ensures !MayStillClaim(NextRun(run, reply), u)
  {
  }

  /** The drawer of an id never changes, and once past its claim of `u` stays past it. */
  lemma PassedStaysPassed(s: State, e: Event, u: UserId, m: MatchId)
    requires RunsOk(s) && IdsOk(s)
    requires m in s.makers && !MayStillClaim(s.runs[s.makers[m]], u)
    ensures m in Next(s, e).makers && Next(s, e).makers[m] == s.makers[m]
    ensures s.makers[m] in Next(s, e).runs && !MayStillClaim(Next(s, e).runs[s.makers[m]], u)
  {
    var r := s.makers[m];
    assert RunOk(s.runs[r]);
    NextRunPassed(s.runs[r], Reply(s, s.runs[r]), u);
  }

  /** Once the run that drew `m` is past its claim of `u`, `u` cannot come to hold `m`. */
  lemma PassedClaimsStayPassed(s: State, e: Event, u: UserId, m: MatchId)
    requires RunsOk(s) && IdsOk(s)
    requires m in s.makers && !MayStillClaim(s.runs[s.makers[m]], u) && !Holds(s, u, m)
    ensures !Holds(Next(s, e), u, m)
  {
    match e
    case Advance(r) => if r in s.runs { RunEffect(s.occupancy, s.runs[r], u); }
    case AdvanceTeardown(t) => if t in s.teardowns { TeardownEffect(s.occupancy, s.teardowns[t], u); }
    case _ =>
  }

  /** A teardown step that releases `u` deletes its key under exactly that match id. */
  lemma ReleaseDeletes(s: State, t: nat, u: UserId)
    requires RegistryOk(s) && t in s.teardowns
    requires !Released(s.teardowns[t], u) && Released(StepTeardown(s, t).teardowns[t], u)
    ensures !Holds(StepTeardown(s, t), u, s.teardowns[t].matchId)
  {
  }

  lemma ReleasesStickStep(s: State, e: Event)
    requires RunsOk(s) && IdsOk(s) && RegistryOk(s) && ReleasesStick(s)
    ensures ReleasesStick(Next(s, e))
  {
    var s' := Next(s, e);
    forall t, u | t in s'.teardowns && Released(s'.teardowns[t], u)
      ensures !Holds(s', u, s'.teardowns[t].matchId)
    {
      ReleaseSticks(s, e, t, u);
    }
  }

  lemma ReleaseSticks(s: State, e: Event, t: nat, u: UserId)
    requires RunsOk(s) && IdsOk(s) && RegistryOk(s) && ReleasesStick(s)
    requires t in Next(s, e).teardowns && Released(Next(s, e).teardowns[t], u)
    ensures !Holds(Next(s, e), u, Next(s, e).teardowns[t].matchId)
  {
    OnlyItsOwnStepReleases(s, e, t, u);
    if Released(s.teardowns[t], u) {
      PassedClaimsStayPassed(s, e, u, s.teardowns[t].matchId);
    } else {
      ReleaseDeletes(s, t, u);
    }
  }

  lemma OnlyItsOwnStepReleases(s: State, e: Event, t: nat, u: UserId)
    requires t in Next(s, e).teardowns && Released(Next(s, e).teardowns[t], u)
    ensures t in s.teardowns && Next(s, e).teardowns[t].matchId == s.teardowns[t].matchId
    ensures Released(s.teardowns[t], u) || e == AdvanceTeardown(t)
  {
  }

  lemma InvStep(s: State, e: Event)
    requires Inv(s)
    ensures Inv(Next(s, e))
  {
    RunsOkStep(s, e);
    OccupancyOkStep(s, e);
    RegistryOkStep(s, e);
    ReleasesStickStep(s, e);
  }

  lemma {:induction false} InvAlways(s: State, events: seq<Event>)
    requires Inv(s)
    ensures Inv(Execute(s, events))
  {
    if events != [] {
      InvAlways(s, events[..|events| - 1]);
      InvStep(Execute(s, events[..|events| - 1]), events[|events| - 1]);
    }
  }

  lemma TornDownIsForever(s: State, e: Event, m: MatchId, u: UserId)
    requires TornDown(s, m, u)
    ensures TornDown(Next(s, e), m, u)
  {
    var t :| t in s.teardowns && s.teardowns[t].matchId == m && Released(s.teardowns[t], u);
    var s' := Next(s, e);
    assert t in s'.teardowns && s'.teardowns[t].matchId == m && Released(s'.teardowns[t], u);
  }

  lemma NextRunClaims(run: Run, reply: bool, u: UserId)
    requires RunOk(run) && Claimed(NextRun(run, reply), u) && !Claimed(run, u)
    ensures reply && run.id.Some? && NextRun(run, reply).id == run.id
    ensures (run.phase.ClaimSeeker? && u == run.seeker) || (run.phase.ClaimPartner? && u == run.partner)
  {
  }

  /** A claim that a step makes is in the store after that step. */
  lemma ClaimIsWritten(s: State, e: Event, r: nat, u: UserId)
    requires Inv(s)
    requires r in Next(s, e).runs && Claimed(Next(s, e).runs[r], u)
    requires r !in s.runs || !Claimed(s.runs[r], u)
    ensures r in s.runs && s.runs[r].id.Some? && Next(s, e).runs[r].id == s.runs[r].id
    ensures Holds(Next(s, e), u, s.runs[r].id.value)
  {
    assert e == Advance(r) && r in s.runs;
    NextRunClaims(s.runs[r], Reply(s, s.runs[r]), u);
  }

  /** Short of its own keys expiring only a rollback or a teardown of a match removes its claims. */
  lemma PersistentStep(s: State, e: Event, m: MatchId)
    requires Inv(s) && Persistent(s, m) && !ExpiresUnder(s, e, m)
    ensures Persistent(Next(s, e), m)
  {
    var s' := Next(s, e);
    InvStep(s, e);
    if m in s'.makers && s'.makers[m] in s'.runs {
      var r := s'.makers[m];
      forall u | Claimed(s'.runs[r], u) ensures Holds(s', u, m) || TornDown(s', m, u) {
        if r in s.runs && Claimed(s.runs[r], u) {
          OldClaimSurvives(s, e, r, u, m);
        } else {
          ClaimIsWritten(s, e, r, u);
        }
      }
    }
  }

  lemma OldClaimSurvives(s: State, e: Event, r: nat, u: UserId, m: MatchId)
    requires Inv(s) && Persistent(s, m) && !ExpiresUnder(s, e, m)
    requires r in s.runs && Claimed(s.runs[r], u)
    requires r in Next(s, e).runs && Claimed(Next(s, e).runs[r], u) && Next(s, e).runs[r].id == Some(m)
    ensures Holds(Next(s, e), u, m) || TornDown(Next(s, e), m, u)
  {
    RunsKeepIdentity(s, e, r);
    if TornDown(s, m, u) {
      TornDownIsForever(s, e, m, u);
    } else {
      ClaimSurvives(s, e, r, u, m);
    }
  }

  lemma OthersKeepOccupancy(s: State, e: Event)
    requires !e.Advance? && !e.AdvanceTeardown? && !e.OccupancyExpires?
    ensures Next(s, e).occupancy == s.occupancy
  {
  }

  lemma ClaimSurvives(s: State, e: Event, r: nat, u: UserId, m: MatchId)
    requires RunsOk(s) && IdsOk(s) && !ExpiresUnder(s, e, m)
    requires r in s.runs && s.runs[r].id == Some(m) && Holds(s, u, m)
    requires r in Next(s, e).runs && Claimed(Next(s, e).runs[r], u)
    ensures Holds(Next(s, e), u, m) || TornDown(Next(s, e), m, u)
  {
    match e
    case Advance(q) => if q in s.runs { ClaimSurvivesRuns(s, q, r, u); }
    case AdvanceTeardown(t) => if t in s.teardowns { ClaimSurvivesTeardowns(s, t, u); }
    case OccupancyExpires(_) =>
    case _ => OthersKeepOccupancy(s, e);
  }

  /** A rollback deletes only the rolling run's own claim, which it then no longer has. */
  lemma ClaimSurvivesRuns(s: State, q: nat, r: nat, u: UserId)
    requires RunsOk(s) && IdsOk(s) && q in s.runs && r in s.runs && s.runs[r].id.Some?
    requires Holds(s, u, s.runs[r].id.value) && Claimed(AdvanceRun(s, q).runs[r], u)
    ensures Holds(AdvanceRun(s, q), u, s.runs[r].id.value)
  {
    RunEffect(s.occupancy, s.runs[q], u);
    assert RunOk(s.runs[q]);
  }

  lemma ClaimSurvivesTeardowns(s: State, t: nat, u: UserId)
    requires t in s.teardowns && u in s.occupancy
    ensures Holds(StepTeardown(s, t), u, s.occupancy[u]) || TornDown(StepTeardown(s, t), s.occupancy[u], u)
  {
    var td, s' := s.teardowns[t], StepTeardown(s, t);
    TeardownEffect(s.occupancy, td, u);
    if !Holds(s', u, s.occupancy[u]) {
      assert t in s'.teardowns && s'.teardowns[t].matchId == s.occupancy[u] && Released(s'.teardowns[t], u);
    }
  }

  lemma {:induction false} PersistentAlways(s: State, events: seq<Event>, m: MatchId)
    requires Inv(s) && Persistent(s, m) && KeepsKeysOf(s, events, m)
    ensures Persistent(Execute(s, events), m)
  {
    if events != [] {
      var n := |events| - 1;
      var front := events[..n];
      forall i: nat | i < n ensures !ExpiresUnder(Execute(s, front[..i]), front[i], m) {
        assert front[..i] == events[..i] && !ExpiresUnder(Execute(s, events[..i]), events[i], m);
      }
      PersistentAlways(s, front, m);
      InvAlways(s, front);
      assert !ExpiresUnder(Execute(s, events[..n]), events[n], m);
      PersistentStep(Execute(s, front), events[n], m);
    }
  }

  // ---------------------------------------------------------------------------------------
  // Main results
  // ---------------------------------------------------------------------------------------

  /** In every run, with every kind of expiry, a match id is only ever held by its own two users. */
  lemma OnlyTheChosenTwo(s0: State, events: seq<Event>, m: MatchId)
    requires Initial(s0)
    ensures var s := Execute(s0, events);
      if m in s.makers
      then s.makers[m] in s.runs &&
           Holders(s, m) <= {s.runs[s.makers[m]].seeker, s.runs[s.makers[m]].partner} &&
           s.runs[s.makers[m]].seeker != s.runs[s.makers[m]].partner
      else Holders(s, m) == {}
  {
    InvAlways(s0, events);
  }

  /**
   All-or-nothing pairing. In every interleaving in which no key expires while it holds the match
   (locks may expire, and so may every other key), a match that is not in the middle of its claims
   or of its teardown is held by both of its users or by neither: by both exactly if its run
   succeeded and no teardown has released it.
  */
  lemma AllOrNothing(s0: State, events: seq<Event>, m: MatchId)
    requires Initial(s0) && KeepsKeysOf(s0, events, m)
    requires m in Execute(s0, events).makers && Settled(Execute(s0, events), m)
    ensures var s := Execute(s0, events);
      s.makers[m] in s.runs &&
      var run := s.runs[s.makers[m]];
      run.seeker != run.partner &&
      Holders(s, m) == (if run.paired && !TornDown(s, m, run.seeker) then {run.seeker, run.partner} else {})
  {
    InvAlways(s0, events);
    PersistentAlways(s0, events, m);
    SettledHolders(Execute(s0, events), m);
  }

  lemma SettledHolders(s: State, m: MatchId)
    requires Inv(s) && Persistent(s, m) && m in s.makers && Settled(s, m)
    ensures var run := s.runs[s.makers[m]];
      Holders(s, m) == (if run.paired && !TornDown(s, m, run.seeker) then {run.seeker, run.partner} else {})
  {
    var run := s.runs[s.makers[m]];
    assert forall u | Holds(s, u, m) :: Claimed(run, u);
    if run.paired {
      TornDownTogether(s, m);
      if TornDown(s, m, run.seeker) {
        TornDownIsReleased(s, m, run.seeker);
        TornDownIsReleased(s, m, run.partner);
      } else {
        assert Claimed(run, run.seeker) && Claimed(run, run.partner);
      }
    }
  }

  /** In the middle of its claims, a match is held by its seeker alone. */
  lemma MidClaimHolders(s: State, m: MatchId)
    requires Inv(s) && Persistent(s, m) && m in s.makers && Committing(s.runs[s.makers[m]])
    ensures Holders(s, m) == {s.runs[s.makers[m]].seeker}
  {
    var run := s.runs[s.makers[m]];
    assert RunOk(run);
    assert forall u | Holds(s, u, m) :: Claimed(run, u);
    assert Claimed(run, run.seeker) && !run.paired;
    assert !TornDown(s, m, run.seeker);
  }

  /**
   Between its two releases, a teardown - even one that stops there for good - leaves the match to
   its partner alone, unless another teardown has released the partner as well.
  */
  lemma HalfTornDownHolders(s: State, t: nat)
    requires t in s.teardowns && s.teardowns[t].phase == ReleaseB
    requires Inv(s) && Persistent(s, s.teardowns[t].matchId)
    ensures var m := s.teardowns[t].matchId;
      m in s.makers && s.makers[m] in s.runs &&
      var run := s.runs[s.makers[m]];
      Holders(s, m) == if TornDown(s, m, run.partner) then {} else {run.partner}
  {
    var m := s.teardowns[t].matchId;
    var run := s.runs[s.makers[m]];
    assert Released(s.teardowns[t], run.seeker) && TornDown(s, m, run.seeker);
    TornDownIsReleased(s, m, run.seeker);
    assert forall u | Holds(s, u, m) :: Claimed(run, u);
    if TornDown(s, m, run.partner) {
      TornDownIsReleased(s, m, run.partner);
    } else {
      assert Claimed(run, run.partner);
    }
  }

  /** And if a key of a complete match does expire, its other user is left holding it alone. */
  lemma ExpirySplitsMatch(s: State, u: UserId, m: MatchId)
    requires Inv(s) && Persistent(s, m) && m in s.makers && Settled(s, m) && Holds(s, u, m)
    ensures var run := s.runs[s.makers[m]];
      run.Involves(u) && Holders(Next(s, OccupancyExpires(u)), m) == {run.seeker, run.partner} - {u}
  {
    SettledHolders(s, m);
    assert u in Holders(s, m);
    assert Holders(Next(s, OccupancyExpires(u)), m) == Holders(s, m) - {u};
  }

  lemma TornDownIsReleased(s: State, m: MatchId, u: UserId)
    requires ReleasesStick(s) && TornDown(s, m, u)
    ensures !Holds(s, u, m)
  {
    var t :| t in s.teardowns && s.teardowns[t].matchId == m && Released(s.teardowns[t], u);
  }

  /** A teardown that is not between its two releases has released both users or neither. */
  lemma TornDownTogether(s: State, m: MatchId)
    requires Inv(s) && m in s.makers && Settled(s, m)
    ensures var run := s.runs[s.makers[m]]; TornDown(s, m, run.seeker) == TornDown(s, m, run.partner)
  {
    var run := s.runs[s.makers[m]];
    assert forall t | t in s.teardowns && s.teardowns[t].matchId == m ::
      Released(s.teardowns[t], run.seeker) == Released(s.teardowns[t], run.partner);
    if TornDown(s, m, run.seeker) {
      var t :| t in s.teardowns && s.teardowns[t].matchId == m && Released(s.teardowns[t], run.seeker);
      assert Released(s.teardowns[t], run.partner);
    }
    if TornDown(s, m, run.partner) {
      var t :| t in s.teardowns && s.teardowns[t].matchId == m && Released(s.teardowns[t], run.partner);
      assert Released(s.teardowns[t], run.seeker);
    }
  }

  /**
   An occupancy key never changes from one id to another, and is deleted only by its expiry, by a
   rollback of the run that drew the id in it, or by a teardown of that very match.
  */
  lemma OccupancyDeletedByOwner(s: State, e: Event, u: UserId)
    requires Inv(s) && u in s.occupancy
    ensures u in Next(s, e).occupancy ==> Next(s, e).occupancy[u] == s.occupancy[u]
    ensures u !in Next(s, e).occupancy ==>
      e == OccupancyExpires(u) ||
      (e.Advance? && e.run == s.makers[s.occupancy[u]] && s.runs[e.run].phase == Rollback) ||
      (e.AdvanceTeardown? && e.teardown in s.teardowns && s.teardowns[e.teardown].matchId == s.occupancy[u])
  {
    match e
    case Advance(r) => if r in s.runs { RunEffect(s.occupancy, s.runs[r], u); }
    case AdvanceTeardown(t) => if t in s.teardowns { TeardownEffect(s.occupancy, s.teardowns[t], u); }
    case OccupancyExpires(_) =>
    case _ => OthersKeepOccupancy(s, e);
  }

  /** A lock never changes hands directly, and is deleted only by its expiry or by the run holding it. */
  lemma LockDeletedByOwner(s: State, e: Event, u: UserId)
    requires u in s.locks
    ensures u in Next(s, e).locks ==> Next(s, e).locks[u] == s.locks[u]
    ensures u !in Next(s, e).locks ==>
      e == LockExpires(u) ||
      (e.Advance? && e.run in s.runs && s.runs[e.run].token == s.locks[u] && s.runs[e.run].Involves(u))
  {
    match e
    case Advance(r) => if r in s.runs { LockEffect(s.locks, s.runs[r], u); }
    case _ =>
  }

  /** Two different matches of one user are separated by a moment in which the user is free. */
  lemma {:induction false} OccupancyNeverOverlaps(s: State, events: seq<Event>, u: UserId)
    requires Inv(s)
    requires u in s.occupancy && u in Execute(s, events).occupancy
    requires s.occupancy[u] != Execute(s, events).occupancy[u]
    ensures exists k | 0 <= k < |events| :: u !in Execute(s, events[..k]).occupancy
  {
    var front, last := events[..|events| - 1], events[|events| - 1];
    var before := Execute(s, front);
    InvAlways(s, front);
    if u in before.occupancy {
      OccupancyDeletedByOwner(before, last, u);
      OccupancyNeverOverlaps(s, front, u);
      var k :| 0 <= k < |front| && u !in Execute(s, front[..k]).occupancy;
      assert front[..k] == events[..k];
    }
  }

  /** A user who has left a match never holds it again, however late or often it is torn down. */
  lemma MatchesNeverReturn(s0: State, first: seq<Event>, next: seq<Event>, later: seq<Event>, u: UserId, m: MatchId)
    requires Initial(s0)
    requires Holds(Execute(s0, first), u, m)
    requires !Holds(Execute(s0, first + next), u, m)
    ensures !Holds(Execute(s0, first + next + later), u, m)
  {
    var s1 := Execute(s0, first);
    InvAlways(s0, first);
    assert !MayStillClaim(s1.runs[s1.makers[m]], u);
    ExecuteConcat(s0, first, next);
    InvAlways(s1, next);
    ClaimsStayPassed(s1, next, u, m);
    ExecuteConcat(s0, first + next, later);
    ClaimsStayPassed(Execute(s1, next), later, u, m);
  }

  lemma {:induction false} ClaimsStayPassed(s: State, events: seq<Event>, u: UserId, m: MatchId)
    requires Inv(s) && m in s.makers && !MayStillClaim(s.runs[s.makers[m]], u)
    ensures Inv(Execute(s, events))
    ensures var s' := Execute(s, events);
      m in s'.makers && !MayStillClaim(s'.runs[s'.makers[m]], u) &&
      (!Holds(s, u, m) ==> !Holds(s', u, m))
  {
    InvAlways(s, events);
    if events != [] {
      var front := events[..|events| - 1];
      ClaimsStayPassed(s, front, u, m);
      PassedStaysPassed(Execute(s, front), events[|events| - 1], u, m);
      if !Holds(s, u, m) {
        PassedClaimsStayPassed(Execute(s, front), events[|events| - 1], u, m);
      }
    }
  }
}
