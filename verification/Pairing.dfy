/**
 The pairing commit protocol as a transition system.

 Any number of `tryMatch` runs and match teardowns, on any number of nodes, share one Redis
 store. Every Redis command is one atomic step; a key may expire between any two steps. An
 `Event` names who moves next, so "every interleaving" is "every sequence of events": an event
 that is not enabled leaves the state as it was. A run that crashes is a run that is never
 scheduled again.
 */
module Pairing {
  import opened Common

  type Token = nat     // the lock token a run draws
  type MatchId = nat   // the match id a run draws

  /** Where a `tryMatch` run stands: the Redis command it issues next. */
  datatype Phase =
    | LockFirst | LockSecond | DropFirst
    | CheckQueuedSeeker | CheckQueuedPartner | CheckBusySeeker | CheckBusyPartner
    | PickId | ClaimSeeker | ClaimPartner | Rollback
    | LeaveSeeker | LeavePartner | UnlockFirst | UnlockSecond
    | Announce | Finished

  /** One `tryMatch` run after selection; `paired` is false when it (will) return null. */
  datatype Run = Run(seeker: UserId, partner: UserId, token: Token, phase: Phase,
                     verified: bool, id: Option<MatchId>, paired: bool)
  {
    /** The pairing locks are taken in ascending user-id order. */
    function First(): UserId { if seeker < partner then seeker else partner }
    function Second(): UserId { if seeker < partner then partner else seeker }

    predicate Involves(u: UserId) { u == seeker || u == partner }
  }

  datatype Pair = Pair(userA: UserId, userB: UserId)

  datatype TeardownPhase = ReadRegistry | ReleaseA | ReleaseB | DropRegistry | Ended

  /** One teardown; `pair` is what the registry answered. */
  datatype Teardown = Teardown(matchId: MatchId, phase: TeardownPhase, pair: Option<Pair>)

  datatype State = State(
    locks: map<UserId, Token>,          // match-lock:{user}
    occupancy: map<UserId, MatchId>,    // user-match:{user}
    queued: set<UserId>,                // queue-entry:{user} exists
    registry: map<MatchId, Pair>,       // match:{id}
    runs: map<nat, Run>,
    teardowns: map<nat, Teardown>,
    makers: map<MatchId, nat>           // history: which run drew a match id
  )

  datatype Event =
    | Select(run: nat, seeker: UserId, partner: UserId, token: Token)
    | Advance(run: nat)
    | DrawId(run: nat, id: MatchId)
    | BeginTeardown(teardown: nat, matchId: MatchId)
    | AdvanceTeardown(teardown: nat)
    | Join(user: UserId)
    | Leave(user: UserId)               // left, or the entry expired
    | LockExpires(user: UserId)
    | OccupancyExpires(user: UserId)
    | RegistryExpires(matchId: MatchId)

  // ---------------------------------------------------------------------------------------
  // Redis commands
  // ---------------------------------------------------------------------------------------

  /** SET key value NX: the first writer wins. */
  function SetNx<V>(m: map<nat, V>, key: nat, value: V): map<nat, V> {
    if key in m then m else m[key := value]
  }

  /** The release script: delete the key only if it still holds `value`. */
  function CompareAndDelete<V(==)>(m: map<nat, V>, key: nat, value: V): map<nat, V> {
    if key in m && m[key] == value then m - {key} else m
  }

  // ---------------------------------------------------------------------------------------
  // One step of a tryMatch run: a command, its effect on the store, and what the run does next
  // ---------------------------------------------------------------------------------------

  /** What Redis answers to the command the run issues: OK for a claim or lock, found for a read. */
  predicate Reply(s: State, run: Run) {
    match run.phase
    case LockFirst => run.First() !in s.locks
    case LockSecond => run.Second() !in s.locks
    case CheckQueuedSeeker => run.seeker in s.queued
    case CheckQueuedPartner => run.partner in s.queued
    case CheckBusySeeker => run.seeker in s.occupancy
    case CheckBusyPartner => run.partner in s.occupancy
    case ClaimSeeker => run.seeker !in s.occupancy
    case ClaimPartner => run.partner !in s.occupancy
    case _ => true
  }

  /** The run's control flow: early returns go through the `finally` that releases the locks. */
  function NextRun(run: Run, reply: bool): Run {
    match run.phase
    case LockFirst => run.(phase := if reply then LockSecond else Finished)
    case LockSecond => run.(phase := if reply then CheckQueuedSeeker else DropFirst)
    case DropFirst => run.(phase := Finished)
    case CheckQueuedSeeker => run.(phase := CheckQueuedPartner, verified := reply)
    case CheckQueuedPartner => run.(phase := CheckBusySeeker, verified := run.verified && reply)
    case CheckBusySeeker => run.(phase := CheckBusyPartner, verified := run.verified && !reply)
    case CheckBusyPartner =>
      run.(phase := if run.verified && !reply then PickId else UnlockFirst, verified := run.verified && !reply)
    case PickId => run
    case ClaimSeeker => run.(phase := if reply then ClaimPartner else UnlockFirst)
    case ClaimPartner => run.(phase := if reply then LeaveSeeker else Rollback, paired := reply)
    case Rollback => run.(phase := UnlockFirst)
    case LeaveSeeker => run.(phase := LeavePartner)
    case LeavePartner => run.(phase := UnlockFirst)
    case UnlockFirst => run.(phase := UnlockSecond)
    case UnlockSecond => run.(phase := if run.paired then Announce else Finished)
    case Announce => run.(phase := Finished)
    case Finished => run
  }

  function LocksAfter(locks: map<UserId, Token>, run: Run): map<UserId, Token> {
    match run.phase
    case LockFirst => SetNx(locks, run.First(), run.token)
    case LockSecond => SetNx(locks, run.Second(), run.token)
    case DropFirst | UnlockFirst => CompareAndDelete(locks, run.First(), run.token)
    case UnlockSecond => CompareAndDelete(locks, run.Second(), run.token)
    case _ => locks
  }

  function OccupancyAfter(occupancy: map<UserId, MatchId>, run: Run): map<UserId, MatchId> {
    if run.id.None? then occupancy else
    match run.phase
    case ClaimSeeker => SetNx(occupancy, run.seeker, run.id.value)
    case ClaimPartner => SetNx(occupancy, run.partner, run.id.value)
    case Rollback => CompareAndDelete(occupancy, run.seeker, run.id.value)
    case _ => occupancy
  }

  function QueuedAfter(queued: set<UserId>, run: Run): set<UserId> {
    match run.phase
    case LeaveSeeker => queued - {run.seeker}
    case LeavePartner => queued - {run.partner}
    case _ => queued
  }

  /** announceMatch records the pair before telling the two users. */
  function RegistryAfter(registry: map<MatchId, Pair>, run: Run): map<MatchId, Pair> {
    if run.phase == Announce && run.id.Some?
    then registry[run.id.value := Pair(run.seeker, run.partner)]
    else registry
  }

  // ---------------------------------------------------------------------------------------
  // One step of a teardown: participants come from the registry, never from the caller
  // ---------------------------------------------------------------------------------------

  function NextTeardown(td: Teardown, registry: map<MatchId, Pair>): Teardown {
    match td.phase
    case ReadRegistry =>
      if td.matchId in registry
      then td.(phase := ReleaseA, pair := Some(registry[td.matchId]))
      else td.(phase := Ended)
    case ReleaseA => td.(phase := ReleaseB)
    case ReleaseB => td.(phase := DropRegistry)
    case DropRegistry => td.(phase := Ended)
    case Ended => td
  }

  function OccupancyAfterTeardown(occupancy: map<UserId, MatchId>, td: Teardown): map<UserId, MatchId> {
    if td.pair.None? then occupancy
    else if td.phase == ReleaseA then CompareAndDelete(occupancy, td.pair.value.userA, td.matchId)
    else if td.phase == ReleaseB then CompareAndDelete(occupancy, td.pair.value.userB, td.matchId)
    else occupancy
  }

  function RegistryAfterTeardown(registry: map<MatchId, Pair>, td: Teardown): map<MatchId, Pair> {
    if td.phase == DropRegistry then registry - {td.matchId} else registry
  }

  // ---------------------------------------------------------------------------------------
  // The transition function
  // ---------------------------------------------------------------------------------------

  function AdvanceRun(s: State, r: nat): State
    requires r in s.runs
  {
    var run := s.runs[r];
    s.(locks := LocksAfter(s.locks, run),
       occupancy := OccupancyAfter(s.occupancy, run),
       queued := QueuedAfter(s.queued, run),
       registry := RegistryAfter(s.registry, run),
       runs := s.runs[r := NextRun(run, Reply(s, run))])
  }

  function StepTeardown(s: State, t: nat): State
    requires t in s.teardowns
  {
    var td := s.teardowns[t];
    s.(occupancy := OccupancyAfterTeardown(s.occupancy, td),
       registry := RegistryAfterTeardown(s.registry, td),
       teardowns := s.teardowns[t := NextTeardown(td, s.registry)])
  }

  /** A run starts once selection has proposed a partner; it draws a token nobody else has. */
  predicate CanSelect(s: State, r: nat, seeker: UserId, partner: UserId, token: Token) {
    r !in s.runs && seeker != partner && forall q | q in s.runs :: s.runs[q].token != token
  }

  predicate CanDraw(s: State, r: nat, id: MatchId) {
    r in s.runs && s.runs[r].phase == PickId && id !in s.makers
  }

  function Next(s: State, e: Event): State {
    match e
    case Select(r, seeker, partner, token) =>
      if CanSelect(s, r, seeker, partner, token)
      then s.(runs := s.runs[r := Run(seeker, partner, token, LockFirst, false, None, false)])
      else s
    case Advance(r) => if r in s.runs then AdvanceRun(s, r) else s
    case DrawId(r, id) =>
      if CanDraw(s, r, id)
      then s.(runs := s.runs[r := s.runs[r].(phase := ClaimSeeker, id := Some(id))],
              makers := s.makers[id := r])
      else s
    case BeginTeardown(t, m) =>
      if t in s.teardowns then s
      else s.(teardowns := s.teardowns[t := Teardown(m, ReadRegistry, None)])
    case AdvanceTeardown(t) => if t in s.teardowns then StepTeardown(s, t) else s
    case Join(u) => s.(queued := s.queued + {u})
    case Leave(u) => s.(queued := s.queued - {u})
    case LockExpires(u) => s.(locks := s.locks - {u})
    case OccupancyExpires(u) => s.(occupancy := s.occupancy - {u})
    case RegistryExpires(m) => s.(registry := s.registry - {m})
  }

  /** The state after all of `events`, in order. */
  function Execute(s: State, events: seq<Event>): State {
    if events == [] then s
    else Next(Execute(s, events[..|events| - 1]), events[|events| - 1])
  }

  /** Nothing claimed, nothing locked, nobody running; anyone may be waiting. */
  predicate Initial(s: State) {
    s.locks == map[] && s.occupancy == map[] && s.registry == map[] &&
    s.runs == map[] && s.teardowns == map[] && s.makers == map[]
  }

  lemma {:induction false} ExecuteConcat(s: State, a: seq<Event>, b: seq<Event>)
    ensures Execute(s, a + b) == Execute(Execute(s, a), b)
  {
    if b == [] {
      assert a + b == a;
    } else {
      var front := b[..|b| - 1];
      ExecuteConcat(s, a, front);
      assert (a + b)[..|a + b| - 1] == a + front;
    }
  }
}
