/**
 `tryMatch` and `teardownMatch` as the nodes run them: ordinary sequential code over the shared
 store, with the other nodes free to act before every command. Each command is one event of the
 transition system, so everything proved about `Execute` holds of the store at every moment.
 */
module PairingNode {
  import opened Common
  import opened Pairing
  import opened PairingSafety
  import opened PairingLocks

  /** The others move any run, teardown or key, but not run `r` and not teardown `t`. */
  predicate NotRun(e: Event, r: nat) {
    !Moves(e, r)
  }

  predicate NotTeardown(e: Event, t: nat) { e != AdvanceTeardown(t) }

  lemma {:induction false} OthersLeaveRunAlone(s: State, events: seq<Event>, r: nat)
    requires r in s.runs && forall e | e in events :: NotRun(e, r)
    ensures r in Execute(s, events).runs && Execute(s, events).runs[r] == s.runs[r]
  {
    if events != [] {
      var front := events[..|events| - 1];
      assert NotRun(events[|events| - 1], r);
      OthersLeaveRunAlone(s, front, r);
    }
  }

  lemma {:induction false} OthersLeaveTeardownAlone(s: State, events: seq<Event>, t: nat)
    requires t in s.teardowns && forall e | e in events :: NotTeardown(e, t)
    ensures t in Execute(s, events).teardowns && Execute(s, events).teardowns[t] == s.teardowns[t]
  {
    if events != [] {
      var front := events[..|events| - 1];
      assert NotTeardown(events[|events| - 1], t);
      OthersLeaveTeardownAlone(s, front, t);
    }
  }

  /** The user to notify: the other one, if the actor is in the match at all. */
  function PeerOf(pair: Pair, actor: Option<UserId>): (peer: Option<UserId>)
    ensures peer.Some? <==> actor.Some? && actor.value in {pair.userA, pair.userB}
    ensures peer.Some? ==> {actor.value, peer.value} == {pair.userA, pair.userB}
  {
    if actor == Some(pair.userA) then Some(pair.userB)
    else if actor == Some(pair.userB) then Some(pair.userA)
    else None
  }

  // ---------------------------------------------------------------------------------------
  // What happened at some moment since the history had length `since`
  // ---------------------------------------------------------------------------------------

  ghost predicate SomeMomentFree(origin: State, history: seq<Event>, user: UserId, since: nat) {
    exists k | since <= k <= |history| :: user !in Execute(origin, history[..k]).occupancy
  }

  ghost predicate SomeMomentOut(origin: State, history: seq<Event>, user: UserId, since: nat) {
    exists k | since <= k <= |history| :: user !in Execute(origin, history[..k]).queued
  }

  /** The `k`-th event is the command that run `r` issues in `phase`. */
  ghost predicate Steps(origin: State, history: seq<Event>, k: nat, r: nat, phase: Phase) {
    k < |history| && history[k] == Advance(r) &&
    r in Execute(origin, history[..k]).runs && Execute(origin, history[..k]).runs[r].phase == phase
  }

  /** The run's EXISTS in `phase` found `user` queued, or not. */
  ghost predicate SawQueued(origin: State, history: seq<Event>, since: nat, r: nat, phase: Phase,
                            user: UserId, answer: bool)
  {
    exists k: nat | since <= k < |history| ::
      Steps(origin, history, k, r, phase) && answer == (user in Execute(origin, history[..k]).queued)
  }

  /** The run's GET in `phase` found `user` in a match, or not. */
  ghost predicate SawOccupied(origin: State, history: seq<Event>, since: nat, r: nat, phase: Phase,
                              user: UserId, answer: bool)
  {
    exists k: nat | since <= k < |history| ::
      Steps(origin, history, k, r, phase) && answer == (user in Execute(origin, history[..k]).occupancy)
  }

  /** The `k`-th event is the command with which run `r`, in `phase`, takes `user` out of the queue. */
  ghost predicate LeavesAt(origin: State, history: seq<Event>, k: nat, r: nat, phase: Phase, user: UserId) {
    Steps(origin, history, k, r, phase) &&
    ((phase == LeaveSeeker && Execute(origin, history[..k]).runs[r].seeker == user) ||
     (phase == LeavePartner && Execute(origin, history[..k]).runs[r].partner == user))
  }

  ghost predicate HasLeft(origin: State, history: seq<Event>, since: nat, r: nat, phase: Phase, user: UserId) {
    exists k: nat | since <= k < |history| :: LeavesAt(origin, history, k, r, phase, user)
  }

  /** Who has left the queue was out of it at that moment. */
  lemma LeftIsOut(origin: State, history: seq<Event>, since: nat, r: nat, phase: Phase, user: UserId)
    requires HasLeft(origin, history, since, r, phase, user)
    ensures SomeMomentOut(origin, history, user, since)
  {
    var k: nat :| since <= k < |history| && LeavesAt(origin, history, k, r, phase, user);
    OutAfterLeaving(origin, history, k, r, phase, user);
  }

  lemma OutAfterLeaving(origin: State, history: seq<Event>, k: nat, r: nat, phase: Phase, user: UserId)
    requires LeavesAt(origin, history, k, r, phase, user)
    ensures user !in Execute(origin, history[..k + 1]).queued
  {
    assert history[..k + 1][..k] == history[..k];
  }

  lemma SeenFreeWasFree(origin: State, history: seq<Event>, since: nat, r: nat, phase: Phase, user: UserId)
    requires SawOccupied(origin, history, since, r, phase, user, false)
    ensures SomeMomentFree(origin, history, user, since)
  {
  }

  /** What was seen since a later moment in a shorter history was seen since an earlier one in a longer. */
  lemma QueuedStaysSeen(origin: State, history: seq<Event>, longer: seq<Event>, since: nat, earlier: nat,
                        r: nat, phase: Phase, user: UserId, answer: bool)
    requires history <= longer && earlier <= since && SawQueued(origin, history, since, r, phase, user, answer)
    ensures SawQueued(origin, longer, earlier, r, phase, user, answer)
  {
    var k: nat :| since <= k < |history| && Steps(origin, history, k, r, phase) &&
                  answer == (user in Execute(origin, history[..k]).queued);
    assert longer[..k] == history[..k];
    assert Steps(origin, longer, k, r, phase);
  }

  lemma OccupiedStaysSeen(origin: State, history: seq<Event>, longer: seq<Event>, since: nat, earlier: nat,
                          r: nat, phase: Phase, user: UserId, answer: bool)
    requires history <= longer && earlier <= since && SawOccupied(origin, history, since, r, phase, user, answer)
    ensures SawOccupied(origin, longer, earlier, r, phase, user, answer)
  {
    var k: nat :| since <= k < |history| && Steps(origin, history, k, r, phase) &&
                  answer == (user in Execute(origin, history[..k]).occupancy);
    assert longer[..k] == history[..k];
    assert Steps(origin, longer, k, r, phase);
  }

  lemma LeftStaysLeft(origin: State, history: seq<Event>, longer: seq<Event>, since: nat, earlier: nat,
                      r: nat, phase: Phase, user: UserId)
    requires history <= longer && earlier <= since && HasLeft(origin, history, since, r, phase, user)
    ensures HasLeft(origin, longer, earlier, r, phase, user)
  {
    var k: nat :| since <= k < |history| && LeavesAt(origin, history, k, r, phase, user);
    assert longer[..k] == history[..k];
    assert LeavesAt(origin, longer, k, r, phase, user);
  }

  lemma StepTaken(origin: State, before: seq<Event>, s: State, r: nat)
    requires s == Execute(origin, before) && r in s.runs
    ensures Steps(origin, before + [Advance(r)], |before|, r, s.runs[r].phase)
    ensures Execute(origin, (before + [Advance(r)])[..|before|]) == s
  {
    assert (before + [Advance(r)])[..|before|] == before;
  }

  class SharedStore {
    // Redis
    var locks: map<UserId, Token>
    var occupancy: map<UserId, MatchId>
    var queued: set<UserId>
    var registry: map<MatchId, Pair>
    // where every run and teardown stands
    var runs: map<nat, Run>
    var teardowns: map<nat, Teardown>
    var makers: map<MatchId, nat>
    // how the store came to be what it is
    const origin: State
    var history: seq<Event>

    function Now(): State
      reads this
    {
      State(locks, occupancy, queued, registry, runs, teardowns, makers)
    }

    /** The store is what the recorded events made of an empty one. */
    ghost predicate Valid()
      reads this
    {
      Initial(origin) && Now() == Execute(origin, history)
    }

    constructor (waiting: set<UserId>)
      ensures Valid() && history == [] && queued == waiting && runs == map[] && teardowns == map[]
    {
      locks, occupancy, queued, registry := map[], map[], waiting, map[];
      runs, teardowns, makers := map[], map[], map[];
      origin := State(map[], map[], waiting, map[], map[], map[], map[]);
      history := [];
    }

    /** Exactly the event `e` happened. */
    twostate predicate Happened(e: Event)
      reads this
    {
      Now() == Next(old(Now()), e) && history == old(history) + [e]
    }

    twostate lemma HappenedKeepsValid(e: Event)
      requires old(Valid()) && Happened(e)
      ensures Valid()
    {
      assert history[..|history| - 1] == old(history);
    }

    /** Whatever the other nodes do next, as long as it leaves run `r` alone. */
    method Others(events: seq<Event>)
      requires Valid()
      modifies this
      ensures Valid() && history == old(history) + events
      ensures Now() == Execute(old(Now()), events)
    {
      var s := Execute(Now(), events);
      ExecuteConcat(origin, history, events);
      locks, occupancy, queued, registry := s.locks, s.occupancy, s.queued, s.registry;
      runs, teardowns, makers := s.runs, s.teardowns, s.makers;
      history := history + events;
    }

    method OthersDuring(r: nat, others: nat -> seq<Event>)
      requires Valid() && r in runs
      requires forall i: nat, e | e in others(i) :: NotRun(e, r)
      modifies this
      ensures Valid() && old(history) <= history
      ensures r in runs && runs[r] == old(runs)[r]
    {
      OthersLeaveRunAlone(Now(), others(|history|), r);
      Others(others(|history|));
    }

    // -------------------------------------------------------------------------------------
    // Redis commands, as the queue repository issues them
    // -------------------------------------------------------------------------------------

    method SetLock(user: UserId, token: Token) returns (ok: bool)
      modifies this`locks
      ensures locks == SetNx(old(locks), user, token) && ok == (user !in old(locks))
    {
      ok := user !in locks;
      if ok { locks := locks[user := token]; }
    }

    method ReleaseLock(user: UserId, token: Token)
      modifies this`locks
      ensures locks == CompareAndDelete(old(locks), user, token)
    {
      if user in locks && locks[user] == token { locks := locks - {user}; }
    }

    method ClaimForMatch(user: UserId, matchId: MatchId) returns (ok: bool)
      modifies this`occupancy
      ensures occupancy == SetNx(old(occupancy), user, matchId) && ok == (user !in old(occupancy))
    {
      ok := user !in occupancy;
      if ok { occupancy := occupancy[user := matchId]; }
    }

    method ReleaseMatch(user: UserId, matchId: MatchId)
      modifies this`occupancy
      ensures occupancy == CompareAndDelete(old(occupancy), user, matchId)
    {
      if user in occupancy && occupancy[user] == matchId { occupancy := occupancy - {user}; }
    }

    /** The run has seen `reply`; its program counter moves on. */
    method Record(r: nat, reply: bool)
      requires r in runs
      modifies this`runs, this`history
      ensures runs == old(runs)[r := NextRun(old(runs)[r], reply)]
      ensures history == old(history) + [Advance(r)]
    {
      runs := runs[r := NextRun(runs[r], reply)];
      history := history + [Advance(r)];
    }

    // -------------------------------------------------------------------------------------
    // One command of run `r`, after whatever the others do first
    // -------------------------------------------------------------------------------------

    /** The last thing that happened is run `r`'s command, answered with `reply`. */
    twostate predicate Commanded(r: nat, reply: bool)
      requires r in old(runs)
      reads this
    {
      Valid() && old(history) < history && history[|history| - 1] == Advance(r) &&
      r in runs && runs[r] == NextRun(old(runs)[r], reply)
    }

    method TakeLock(r: nat, user: UserId, others: nat -> seq<Event>) returns (ok: bool)
      requires Valid() && r in runs
      requires (runs[r].phase == LockFirst && user == runs[r].First()) ||
               (runs[r].phase == LockSecond && user == runs[r].Second())
      requires forall i: nat, e | e in others(i) :: NotRun(e, r)
      modifies this
      ensures Commanded(r, ok)
    {
      OthersDuring(r, others);
      label command:
      ok := SetLock(user, runs[r].token);
      Record(r, ok);
      HappenedKeepsValid@command(Advance(r));
    }

    method GiveLockBack(r: nat, user: UserId, others: nat -> seq<Event>)
      requires Valid() && r in runs
      requires ((runs[r].phase == DropFirst || runs[r].phase == UnlockFirst) && user == runs[r].First()) ||
               (runs[r].phase == UnlockSecond && user == runs[r].Second())
      requires forall i: nat, e | e in others(i) :: NotRun(e, r)
      modifies this
      ensures Commanded(r, true)
    {
      OthersDuring(r, others);
      label command:
      ReleaseLock(user, runs[r].token);
      Record(r, true);
      HappenedKeepsValid@command(Advance(r));
    }

    method IsQueued(r: nat, user: UserId, others: nat -> seq<Event>) returns (found: bool)
      requires Valid() && r in runs
      requires (runs[r].phase == CheckQueuedSeeker && user == runs[r].seeker) ||
               (runs[r].phase == CheckQueuedPartner && user == runs[r].partner)
      requires forall i: nat, e | e in others(i) :: NotRun(e, r)
      modifies this
      ensures Commanded(r, found) && found == (user in queued)
      ensures SawQueued(origin, history, |old(history)|, r, old(runs)[r].phase, user, found)
    {
      OthersDuring(r, others);
      label command:
      StepTaken(origin, history, Now(), r);
      found := user in queued;
      Record(r, found);
      HappenedKeepsValid@command(Advance(r));
    }

    method CurrentMatch(r: nat, user: UserId, others: nat -> seq<Event>) returns (current: Option<MatchId>)
      requires Valid() && r in runs
      requires (runs[r].phase == CheckBusySeeker && user == runs[r].seeker) ||
               (runs[r].phase == CheckBusyPartner && user == runs[r].partner)
      requires forall i: nat, e | e in others(i) :: NotRun(e, r)
      modifies this
      ensures Commanded(r, current.Some?)
      ensures current.Some? == (user in occupancy) && (current.Some? ==> Holds(Now(), user, current.value))
      ensures SawOccupied(origin, history, |old(history)|, r, old(runs)[r].phase, user, current.Some?)
    {
      OthersDuring(r, others);
      label command:
      StepTaken(origin, history, Now(), r);
      current := if user in occupancy then Some(occupancy[user]) else None;
      Record(r, current.Some?);
      HappenedKeepsValid@command(Advance(r));
    }

    method DrawMatchId(r: nat) returns (id: MatchId)
      requires Valid() && r in runs && runs[r].phase == PickId
      modifies this
      ensures Valid() && history == old(history) + [DrawId(r, id)]
      ensures r in runs && runs[r] == old(runs)[r].(phase := ClaimSeeker, id := Some(id))
    {
      ghost var unused := SomeIdIsUnused(makers.Keys, 0);
      assert unused !in makers;
      id :| id !in makers;
      runs := runs[r := runs[r].(phase := ClaimSeeker, id := Some(id))];
      makers := makers[id := r];
      history := history + [DrawId(r, id)];
      HappenedKeepsValid(DrawId(r, id));
    }

    method Claim(r: nat, user: UserId, matchId: MatchId, others: nat -> seq<Event>) returns (ok: bool)
      requires Valid() && r in runs && runs[r].id == Some(matchId)
      requires (runs[r].phase == ClaimSeeker && user == runs[r].seeker) ||
               (runs[r].phase == ClaimPartner && user == runs[r].partner)
      requires forall i: nat, e | e in others(i) :: NotRun(e, r)
      modifies this
      ensures Commanded(r, ok) && user in occupancy && (ok ==> occupancy[user] == matchId)
    {
      OthersDuring(r, others);
      label command:
      ok := ClaimForMatch(user, matchId);
      Record(r, ok);
      HappenedKeepsValid@command(Advance(r));
    }

    method UndoClaim(r: nat, user: UserId, matchId: MatchId, others: nat -> seq<Event>)
      requires Valid() && r in runs && runs[r].id == Some(matchId)
      requires runs[r].phase == Rollback && user == runs[r].seeker
      requires forall i: nat, e | e in others(i) :: NotRun(e, r)
      modifies this
      ensures Commanded(r, true) && !Holds(Now(), user, matchId)
    {
      OthersDuring(r, others);
      label command:
      ReleaseMatch(user, matchId);
      Record(r, true);
      HappenedKeepsValid@command(Advance(r));
    }

    method LeaveQueue(r: nat, user: UserId, others: nat -> seq<Event>)
      requires Valid() && r in runs
      requires (runs[r].phase == LeaveSeeker && user == runs[r].seeker) ||
               (runs[r].phase == LeavePartner && user == runs[r].partner)
      requires forall i: nat, e | e in others(i) :: NotRun(e, r)
      modifies this
      ensures Commanded(r, true) && user !in queued
      ensures HasLeft(origin, history, |old(history)|, r, old(runs)[r].phase, user)
    {
      OthersDuring(r, others);
      label command:
      StepTaken(origin, history, Now(), r);
      queued := queued - {user};
      Record(r, true);
      HappenedKeepsValid@command(Advance(r));
      assert LeavesAt(origin, history, |history| - 1, r, old(runs)[r].phase, user);
    }

    /** At some moment since the history had length `since`, `user` was in no match. */
    ghost predicate WasFree(user: UserId, since: nat)
      reads this
    {
      SomeMomentFree(origin, history, user, since)
    }

    /** At some moment since then, `user` was not queued. */
    ghost predicate WasOut(user: UserId, since: nat)
      reads this
    {
      SomeMomentOut(origin, history, user, since)
    }

    /** Since then, run `r` has looked up whether its users are queued; `ok` says that both were found. */
    ghost predicate BothSeenQueued(r: nat, since: nat, ok: bool)
      reads this
    {
      r in runs &&
      exists a, b: bool ::
        SawQueued(origin, history, since, r, CheckQueuedSeeker, runs[r].seeker, a) &&
        SawQueued(origin, history, since, r, CheckQueuedPartner, runs[r].partner, b) &&
        ok == (a && b)
    }

    /** Since then, run `r` has looked up their matches; `ok` says that neither had one, and both were queued. */
    ghost predicate BothSeenFree(r: nat, since: nat, queuedBoth: bool, ok: bool)
      reads this
    {
      r in runs &&
      exists a, b: bool ::
        SawOccupied(origin, history, since, r, CheckBusySeeker, runs[r].seeker, a) &&
        SawOccupied(origin, history, since, r, CheckBusyPartner, runs[r].partner, b) &&
        ok == (queuedBoth && !a && !b)
    }

    /** Since then, run `r` has taken both its users out of the queue. */
    ghost predicate BothLeft(r: nat, since: nat)
      reads this
    {
      r in runs && HasLeft(origin, history, since, r, LeaveSeeker, runs[r].seeker) &&
      HasLeft(origin, history, since, r, LeavePartner, runs[r].partner)
    }

    /** Steps once taken stay taken, and a later start makes the claim no weaker. */
    lemma BothHaveLeft(before: seq<Event>, since: nat, earlier: nat, r: nat)
      requires r in runs && before <= history && earlier <= since
      requires HasLeft(origin, before, since, r, LeaveSeeker, runs[r].seeker)
      requires HasLeft(origin, before, since, r, LeavePartner, runs[r].partner)
      ensures BothLeft(r, earlier)
    {
      LeftStaysLeft(origin, before, history, since, earlier, r, LeaveSeeker, runs[r].seeker);
      LeftStaysLeft(origin, before, history, since, earlier, r, LeavePartner, runs[r].partner);
    }

    // -------------------------------------------------------------------------------------
    // tryMatch
    // -------------------------------------------------------------------------------------

    /** The part between acquiring the locks and the `finally` that releases them. */
    method CommitUnderLocks(r: nat, others: nat -> seq<Event>) returns (result: Option<MatchId>)
      requires Valid() && r in runs && runs[r].phase == CheckQueuedSeeker && !runs[r].paired
      requires forall i: nat, e | e in others(i) :: NotRun(e, r)
      modifies this
      ensures Valid() && old(history) <= history
      ensures r in runs && runs[r].phase == UnlockFirst && runs[r].paired == result.Some?
      ensures result.Some? ==> runs[r].id == result && BothLeft(r, |old(history)|)
      ensures runs[r].seeker == old(runs)[r].seeker && runs[r].partner == old(runs)[r].partner
      ensures runs[r].token == old(runs)[r].token
    {
      var ok := Reverify(r, others);
      if !ok { return None; }
      ghost var since := |history|;
      result := ClaimBoth(r, others);
      if result.Some? { BothHaveLeft(history, since, |old(history)|, r); }
    }

    /** All four lookups under the locks. */
    method Reverify(r: nat, others: nat -> seq<Event>) returns (ok: bool)
      requires Valid() && r in runs && runs[r].phase == CheckQueuedSeeker
      requires forall i: nat, e | e in others(i) :: NotRun(e, r)
      modifies this
      ensures Valid() && old(history) <= history && r in runs
      ensures runs[r] == old(runs)[r].(phase := if ok then PickId else UnlockFirst, verified := ok)
    {
      ghost var run := runs[r];
      var queuedBoth := CheckBothQueued(r, others);
      assert runs[r] == run.(phase := CheckBusySeeker, verified := queuedBoth);
      ok := CheckBothFree(r, others);
    }

    method CheckBothQueued(r: nat, others: nat -> seq<Event>) returns (ok: bool)
      requires Valid() && r in runs && runs[r].phase == CheckQueuedSeeker
      requires forall i: nat, e | e in others(i) :: NotRun(e, r)
      modifies this
      ensures Valid() && old(history) <= history && r in runs
      ensures runs[r] == old(runs)[r].(phase := CheckBusySeeker, verified := ok)
      ensures BothSeenQueued(r, |old(history)|, ok)
    {
      ghost var run := runs[r];
      var stillQueuedSeeker := IsQueued(r, runs[r].seeker, others);
      ghost var seen := history;
      assert runs[r] == run.(phase := CheckQueuedPartner, verified := stillQueuedSeeker);
      var stillQueuedPartner := IsQueued(r, runs[r].partner, others);
      ok := stillQueuedSeeker && stillQueuedPartner;
      assert runs[r] == run.(phase := CheckBusySeeker, verified := ok);
      QueueLookupsCount(seen, |old(history)|, r, stillQueuedSeeker, stillQueuedPartner);
    }

    /** The two lookups in the queue, put together. */
    lemma QueueLookupsCount(seen: seq<Event>, since: nat, r: nat, a: bool, b: bool)
      requires r in runs && seen <= history && since <= |seen|
      requires SawQueued(origin, seen, since, r, CheckQueuedSeeker, runs[r].seeker, a)
      requires SawQueued(origin, history, |seen|, r, CheckQueuedPartner, runs[r].partner, b)
      ensures BothSeenQueued(r, since, a && b)
    {
      QueuedStaysSeen(origin, seen, history, since, since, r, CheckQueuedSeeker, runs[r].seeker, a);
      QueuedStaysSeen(origin, history, history, |seen|, since, r, CheckQueuedPartner, runs[r].partner, b);
    }

    method CheckBothFree(r: nat, others: nat -> seq<Event>) returns (ok: bool)
      requires Valid() && r in runs && runs[r].phase == CheckBusySeeker
      requires forall i: nat, e | e in others(i) :: NotRun(e, r)
      modifies this
      ensures Valid() && old(history) <= history && r in runs
      ensures runs[r] == old(runs)[r].(phase := if ok then PickId else UnlockFirst, verified := ok)
      ensures ok ==> old(runs)[r].verified
      ensures ok ==> WasFree(runs[r].seeker, |old(history)|) && WasFree(runs[r].partner, |old(history)|)
      ensures BothSeenFree(r, |old(history)|, old(runs)[r].verified, ok)
    {
      ghost var run := runs[r];
      var queuedBoth := runs[r].verified;
      var seekerMatch := CurrentMatch(r, runs[r].seeker, others);
      assert runs[r] == run.(phase := CheckBusyPartner, verified := queuedBoth && seekerMatch.None?);
      ok := CheckPartnerFree(r, |old(history)|, queuedBoth, seekerMatch.Some?, others);
    }

    /** The second lookup, after the seeker's was made since the history had length `since`. */
    method CheckPartnerFree(r: nat, ghost since: nat, queuedBoth: bool, seekerBusy: bool, others: nat -> seq<Event>)
      returns (ok: bool)
      requires Valid() && r in runs && runs[r].phase == CheckBusyPartner && since <= |history|
      requires runs[r].verified == (queuedBoth && !seekerBusy)
      requires SawOccupied(origin, history, since, r, CheckBusySeeker, runs[r].seeker, seekerBusy)
      requires forall i: nat, e | e in others(i) :: NotRun(e, r)
      modifies this
      ensures Valid() && old(history) <= history && r in runs
      ensures runs[r] == old(runs)[r].(phase := if ok then PickId else UnlockFirst, verified := ok)
      ensures ok ==> queuedBoth && WasFree(runs[r].seeker, since) && WasFree(runs[r].partner, since)
      ensures BothSeenFree(r, since, queuedBoth, ok)
    {
      var partnerMatch := CurrentMatch(r, runs[r].partner, others);
      ok := queuedBoth && !seekerBusy && partnerMatch.None?;
      LookupsCount(old(history), since, r, queuedBoth, seekerBusy, partnerMatch.Some?);
    }

    /** The two lookups of matches, put together. */
    lemma LookupsCount(seen: seq<Event>, since: nat, r: nat, queuedBoth: bool, a: bool, b: bool)
      requires r in runs && seen <= history && since <= |seen|
      requires SawOccupied(origin, seen, since, r, CheckBusySeeker, runs[r].seeker, a)
      requires SawOccupied(origin, history, |seen|, r, CheckBusyPartner, runs[r].partner, b)
      ensures BothSeenFree(r, since, queuedBoth, queuedBoth && !a && !b)
      ensures !a ==> WasFree(runs[r].seeker, since)
      ensures !b ==> WasFree(runs[r].partner, since)
    {
      OccupiedStaysSeen(origin, seen, history, since, since, r, CheckBusySeeker, runs[r].seeker, a);
      OccupiedStaysSeen(origin, history, history, |seen|, since, r, CheckBusyPartner, runs[r].partner, b);
      if !a { SeenFreeWasFree(origin, history, since, r, CheckBusySeeker, runs[r].seeker); }
      if !b { SeenFreeWasFree(origin, history, since, r, CheckBusyPartner, runs[r].partner); }
    }

    method ClaimBoth(r: nat, others: nat -> seq<Event>) returns (result: Option<MatchId>)
      requires Valid() && r in runs && runs[r].phase == PickId && !runs[r].paired
      requires forall i: nat, e | e in others(i) :: NotRun(e, r)
      modifies this
      ensures Valid() && old(history) <= history
      ensures r in runs && runs[r].phase == UnlockFirst && runs[r].paired == result.Some?
      ensures result.Some? ==> runs[r].id == result && BothLeft(r, |old(history)|)
      ensures runs[r].seeker == old(runs)[r].seeker && runs[r].partner == old(runs)[r].partner
      ensures runs[r].token == old(runs)[r].token
    {
      ghost var run := runs[r];
      var matchId := DrawMatchId(r);
      var ok := Claim(r, runs[r].seeker, matchId, others);
      if !ok { return None; }
      assert runs[r] == run.(phase := ClaimPartner, id := Some(matchId));
      ghost var since := |history|;
      ok := ClaimPartnerOrUndo(r, matchId, others);
      if !ok { return None; }
      BothHaveLeft(history, since, |old(history)|, r);
      return Some(matchId);
    }

    method ClaimPartnerOrUndo(r: nat, matchId: MatchId, others: nat -> seq<Event>) returns (ok: bool)
      requires Valid() && r in runs && runs[r].phase == ClaimPartner && runs[r].id == Some(matchId)
      requires forall i: nat, e | e in others(i) :: NotRun(e, r)
      modifies this
      ensures Valid() && old(history) <= history && r in runs
      ensures runs[r] == old(runs)[r].(phase := UnlockFirst, paired := ok)
      ensures !ok ==> !Holds(Now(), runs[r].seeker, matchId)
      ensures ok ==> WasOut(runs[r].seeker, |old(history)|) && WasOut(runs[r].partner, |old(history)|)
      ensures ok ==> BothLeft(r, |old(history)|)
    {
      ok := Claim(r, runs[r].partner, matchId, others);
      if ok {
        ghost var since := |history|;
        LeaveBoth(r, others);
        BothHaveLeft(history, since, |old(history)|, r);
        LeftIsOut(origin, history, |old(history)|, r, LeaveSeeker, runs[r].seeker);
        LeftIsOut(origin, history, |old(history)|, r, LeavePartner, runs[r].partner);
      } else {
        UndoClaim(r, runs[r].seeker, matchId, others);
      }
    }

    method LeaveBoth(r: nat, others: nat -> seq<Event>)
      requires Valid() && r in runs && runs[r].phase == LeaveSeeker
      requires forall i: nat, e | e in others(i) :: NotRun(e, r)
      modifies this
      ensures Valid() && old(history) <= history && r in runs
      ensures runs[r] == old(runs)[r].(phase := UnlockFirst)
      ensures BothLeft(r, |old(history)|)
    {
      ghost var run := runs[r];
      LeaveQueue(r, runs[r].seeker, others);
      assert runs[r] == run.(phase := LeavePartner);
      LeavePartnerToo(r, |old(history)|, others);
    }

    method LeavePartnerToo(r: nat, ghost since: nat, others: nat -> seq<Event>)
      requires Valid() && r in runs && runs[r].phase == LeavePartner && since <= |history|
      requires HasLeft(origin, history, since, r, LeaveSeeker, runs[r].seeker)
      requires forall i: nat, e | e in others(i) :: NotRun(e, r)
      modifies this
      ensures Valid() && old(history) <= history && r in runs
      ensures runs[r] == old(runs)[r].(phase := UnlockFirst)
      ensures BothLeft(r, since)
    {
      LeaveQueue(r, runs[r].partner, others);
      LeftStaysLeft(origin, old(history), history, since, since, r, LeaveSeeker, runs[r].seeker);
      LeftStaysLeft(origin, history, history, |old(history)|, since, r, LeavePartner, runs[r].partner);
    }

    /** Two try-locks in ascending order; a failed second one hands the first back. */
    method AcquirePairLocks(r: nat, others: nat -> seq<Event>) returns (acquired: bool)
      requires Valid() && r in runs && runs[r].phase == LockFirst
      requires forall i: nat, e | e in others(i) :: NotRun(e, r)
      modifies this
      ensures Valid() && old(history) <= history && r in runs
      ensures runs[r] == old(runs)[r].(phase := if acquired then CheckQueuedSeeker else Finished)
      ensures !acquired ==> HoldsNoLock(r)
    {
      var first, second := runs[r].First(), runs[r].Second();
      acquired := TakeLock(r, first, others);
      if acquired {
        acquired := TakeSecondLock(r, first, second, others);
      }
      if !acquired { NothingLocked(r); }
    }

    /** No key holds the run's token. */
    ghost predicate HoldsNoLock(r: nat)
      reads this
    {
      r in runs && forall u | u in locks :: locks[u] != runs[r].token
    }

    lemma NothingLocked(r: nat)
      requires Valid() && r in runs && (runs[r].phase == Announce || runs[r].phase == Finished)
      ensures HoldsNoLock(r)
    {
      assert Now().runs == runs && Now().locks == locks;
      forall u | u in locks ensures locks[u] != runs[r].token {
        if locks[u] == runs[r].token {
          NoLockIsLeftBehind(origin, history, r, u);
        }
      }
    }

    method TakeSecondLock(r: nat, first: UserId, second: UserId, others: nat -> seq<Event>) returns (acquired: bool)
      requires Valid() && r in runs && runs[r].phase == LockSecond
      requires first == runs[r].First() && second == runs[r].Second()
      requires forall i: nat, e | e in others(i) :: NotRun(e, r)
      modifies this
      ensures Valid() && old(history) <= history && r in runs
      ensures runs[r] == old(runs)[r].(phase := if acquired then CheckQueuedSeeker else Finished)
    {
      acquired := TakeLock(r, second, others);
      if !acquired {
        GiveLockBack(r, first, others);
      }
    }

    method ReleasePairLocks(r: nat, others: nat -> seq<Event>)
      requires Valid() && r in runs && runs[r].phase == UnlockFirst
      requires forall i: nat, e | e in others(i) :: NotRun(e, r)
      modifies this
      ensures Valid() && old(history) <= history && r in runs
      ensures runs[r] == old(runs)[r].(phase := if runs[r].paired then Announce else Finished)
      ensures HoldsNoLock(r)
    {
      var first, second := runs[r].First(), runs[r].Second();
      GiveLockBack(r, first, others);
      assert runs[r] == old(runs)[r].(phase := UnlockSecond);
      GiveLockBack(r, second, others);
      NothingLocked(r);
    }

    /**
     One `tryMatch` run from its selection on, in any environment. Its control flow is the run's
     program counter, it reports a match exactly if both claims succeeded, it leaves no lock behind
     either way, and if it reports none it leaves no occupancy key holding an id of its own.
    */
    method TryMatch(r: nat, seekerId: UserId, partnerId: UserId, lockToken: Token, others: nat -> seq<Event>)
      returns (result: Option<MatchId>)
      requires Valid() && CanSelect(Now(), r, seekerId, partnerId, lockToken)
      requires forall i: nat, e | e in others(i) :: NotRun(e, r)
      modifies this
      ensures Valid() && old(history) + [Select(r, seekerId, partnerId, lockToken)] <= history
      ensures r in runs && runs[r].phase == (if result.Some? then Announce else Finished)
      ensures runs[r].seeker == seekerId && runs[r].partner == partnerId && runs[r].token == lockToken
      ensures runs[r].paired == result.Some? && (result.Some? ==> runs[r].id == result)
      ensures result.Some? ==> result.value in makers && makers[result.value] == r
      ensures result.Some? ==> BothLeft(r, |old(history)|)
      ensures forall u | u in locks :: locks[u] != lockToken
      ensures result.None? ==> forall m | m in makers && makers[m] == r :: Holders(Now(), m) == {}
    {
      BeginRun(r, seekerId, partnerId, lockToken);
      ghost var since := |history|;
      result := LockCommitRelease(r, others);
      if result.Some? {
        BothHaveLeft(history, since, |old(history)|, r);
        DrawnByItself(r);
      } else {
        UnpairedHoldsNothing(r);
      }
    }

    method BeginRun(r: nat, seekerId: UserId, partnerId: UserId, lockToken: Token)
      requires Valid() && CanSelect(Now(), r, seekerId, partnerId, lockToken)
      modifies this
      ensures Valid() && history == old(history) + [Select(r, seekerId, partnerId, lockToken)]
      ensures r in runs && runs[r] == Run(seekerId, partnerId, lockToken, LockFirst, false, None, false)
    {
      runs := runs[r := Run(seekerId, partnerId, lockToken, LockFirst, false, None, false)];
      history := history + [Select(r, seekerId, partnerId, lockToken)];
      HappenedKeepsValid(Select(r, seekerId, partnerId, lockToken));
    }

    /** An id that a run carries is one that it drew. */
    lemma DrawnByItself(r: nat)
      requires Valid() && r in runs && runs[r].id.Some?
      ensures runs[r].id.value in makers && makers[runs[r].id.value] == r
    {
      InvAlways(origin, history);
      assert Now().runs == runs && Now().makers == makers;
    }

    /** A finished run that paired nobody has left nothing behind. */
    lemma UnpairedHoldsNothing(r: nat)
      requires Valid() && r in runs && runs[r].phase == Finished && !runs[r].paired
      ensures forall m | m in makers && makers[m] == r :: Holders(Now(), m) == {}
    {
      InvAlways(origin, history);
      assert Now().runs == runs && Now().makers == makers && Now().occupancy == occupancy;
      assert forall u :: !Claimed(runs[r], u);
    }

    /** acquirePairLocks, the protected section, and the release in `finally`. */
    method LockCommitRelease(r: nat, others: nat -> seq<Event>) returns (result: Option<MatchId>)
      requires Valid() && r in runs && runs[r].phase == LockFirst && !runs[r].paired
      requires forall i: nat, e | e in others(i) :: NotRun(e, r)
      modifies this
      ensures Valid() && old(history) <= history
      ensures r in runs && runs[r].phase == (if result.Some? then Announce else Finished)
      ensures runs[r].seeker == old(runs)[r].seeker && runs[r].partner == old(runs)[r].partner
      ensures runs[r].token == old(runs)[r].token
      ensures runs[r].paired == result.Some? && (result.Some? ==> runs[r].id == result)
      ensures result.Some? ==> BothLeft(r, |old(history)|)
      ensures HoldsNoLock(r)
    {
      var acquired := AcquirePairLocks(r, others);
      if !acquired { return None; }
      ghost var since := |history|;
      result := CommitUnderLocks(r, others);
      ghost var before := history;
      ReleasePairLocks(r, others);
      if result.Some? { BothHaveLeft(before, since, |old(history)|, r); }
    }

    /** saveMatch: the registry learns who is in the match. */
    method SaveMatch(r: nat, matchId: MatchId, others: nat -> seq<Event>)
      requires Valid() && r in runs && runs[r].phase == Announce && runs[r].id == Some(matchId)
      requires forall i: nat, e | e in others(i) :: NotRun(e, r)
      modifies this
      ensures Commanded(r, true)
      ensures matchId in registry && registry[matchId] == Pair(runs[r].seeker, runs[r].partner)
    {
      OthersDuring(r, others);
      label command:
      registry := registry[matchId := Pair(runs[r].seeker, runs[r].partner)];
      Record(r, true);
      HappenedKeepsValid@command(Advance(r));
    }

    /** Whatever the registry names is a completed match of exactly those two. */
    lemma RegisteredIsMatch(m: MatchId)
      requires Valid() && m in registry
      ensures IsMatch(Now(), m, registry[m])
    {
      InvAlways(origin, history);
      assert Now().registry == registry;
    }

    /** announceMatch, as far as the store is concerned. */
    method AnnounceMatch(r: nat, matchId: MatchId, others: nat -> seq<Event>)
      requires Valid() && r in runs && runs[r].phase == Announce && runs[r].id == Some(matchId)
      requires forall i: nat, e | e in others(i) :: NotRun(e, r)
      modifies this
      ensures Valid() && old(history) <= history
      ensures IsMatch(Now(), matchId, Pair(old(runs)[r].seeker, old(runs)[r].partner))
    {
      SaveMatch(r, matchId, others);
      RegisteredIsMatch(matchId);
    }

    /** attemptMatch: a pairing that was found is announced, and is then a match of exactly these two. */
    method AttemptMatch(r: nat, seekerId: UserId, partnerId: UserId, lockToken: Token, others: nat -> seq<Event>)
      returns (result: Option<MatchId>)
      requires Valid() && CanSelect(Now(), r, seekerId, partnerId, lockToken)
      requires forall i: nat, e | e in others(i) :: NotRun(e, r)
      modifies this
      ensures Valid() && old(history) + [Select(r, seekerId, partnerId, lockToken)] <= history
      ensures result.Some? ==> IsMatch(Now(), result.value, Pair(seekerId, partnerId))
    {
      result := TryMatch(r, seekerId, partnerId, lockToken, others);
      if result.Some? {
        AnnounceMatch(r, result.value, others);
      }
    }

    // -------------------------------------------------------------------------------------
    // teardownMatch
    // -------------------------------------------------------------------------------------

    method OthersDuringTeardown(t: nat, others: nat -> seq<Event>)
      requires Valid() && t in teardowns
      requires forall i: nat, e | e in others(i) :: NotTeardown(e, t)
      modifies this
      ensures Valid() && old(history) <= history
      ensures t in teardowns && teardowns[t] == old(teardowns)[t]
    {
      OthersLeaveTeardownAlone(Now(), others(|history|), t);
      Others(others(|history|));
    }

    method RecordTeardown(t: nat, td: Teardown)
      requires t in teardowns
      modifies this`teardowns, this`history
      ensures teardowns == old(teardowns)[t := td] && history == old(history) + [AdvanceTeardown(t)]
    {
      teardowns := teardowns[t := td];
      history := history + [AdvanceTeardown(t)];
    }

    method GetMatchParticipants(t: nat, others: nat -> seq<Event>) returns (pair: Option<Pair>)
      requires Valid() && t in teardowns && teardowns[t].phase == ReadRegistry && teardowns[t].pair.None?
      requires forall i: nat, e | e in others(i) :: NotTeardown(e, t)
      modifies this
      ensures Valid() && old(history) <= history && t in teardowns
      ensures teardowns[t] == old(teardowns)[t].(pair := pair, phase := if pair.Some? then ReleaseA else Ended)
      ensures pair.Some? == (teardowns[t].matchId in registry) &&
              (pair.Some? ==> registry[teardowns[t].matchId] == pair.value)
    {
      OthersDuringTeardown(t, others);
      label command:
      var td := teardowns[t];
      pair := if td.matchId in registry then Some(registry[td.matchId]) else None;
      RecordTeardown(t, td.(pair := pair, phase := if pair.Some? then ReleaseA else Ended));
      HappenedKeepsValid@command(AdvanceTeardown(t));
    }

    method ReleaseParticipant(t: nat, user: UserId, others: nat -> seq<Event>)
      requires Valid() && t in teardowns && teardowns[t].pair.Some?
      requires (teardowns[t].phase == ReleaseA && user == teardowns[t].pair.value.userA) ||
               (teardowns[t].phase == ReleaseB && user == teardowns[t].pair.value.userB)
      requires forall i: nat, e | e in others(i) :: NotTeardown(e, t)
      modifies this
      ensures Valid() && old(history) <= history && t in teardowns
      ensures teardowns[t] == NextTeardown(old(teardowns)[t], map[])
      ensures !Holds(Now(), user, teardowns[t].matchId)
    {
      OthersDuringTeardown(t, others);
      label command:
      var td := teardowns[t];
      ReleaseMatch(user, td.matchId);
      RecordTeardown(t, td.(phase := if td.phase == ReleaseA then ReleaseB else DropRegistry));
      HappenedKeepsValid@command(AdvanceTeardown(t));
    }

    method DeleteMatch(t: nat, others: nat -> seq<Event>)
      requires Valid() && t in teardowns && teardowns[t].phase == DropRegistry
      requires forall i: nat, e | e in others(i) :: NotTeardown(e, t)
      modifies this
      ensures Valid() && old(history) <= history && t in teardowns
      ensures teardowns[t] == old(teardowns)[t].(phase := Ended) && teardowns[t].matchId !in registry
    {
      OthersDuringTeardown(t, others);
      label command:
      var td := teardowns[t];
      registry := registry - {td.matchId};
      RecordTeardown(t, td.(phase := Ended));
      HappenedKeepsValid@command(AdvanceTeardown(t));
    }

    method ReleaseBoth(t: nat, others: nat -> seq<Event>)
      requires Valid() && t in teardowns && teardowns[t].pair.Some? && teardowns[t].phase == ReleaseA
      requires forall i: nat, e | e in others(i) :: NotTeardown(e, t)
      modifies this
      ensures Valid() && old(history) <= history && t in teardowns
      ensures teardowns[t] == old(teardowns)[t].(phase := DropRegistry)
    {
      ReleaseParticipant(t, teardowns[t].pair.value.userA, others);
      ReleaseParticipant(t, teardowns[t].pair.value.userB, others);
    }

    method BeginTeardown(t: nat, matchId: MatchId)
      requires Valid() && t !in teardowns
      modifies this
      ensures Valid() && history == old(history) + [Event.BeginTeardown(t, matchId)]
      ensures t in teardowns && teardowns[t] == Teardown(matchId, ReadRegistry, None)
    {
      teardowns := teardowns[t := Teardown(matchId, ReadRegistry, None)];
      history := history + [Event.BeginTeardown(t, matchId)];
      HappenedKeepsValid(Event.BeginTeardown(t, matchId));
    }

    /**
     Tear a match down, in any environment. The peer it names is the actor's partner in that
     match; afterwards neither user of a registered match holds it, whatever the others did.
    */
    method TeardownMatch(t: nat, matchId: MatchId, actorId: Option<UserId>, others: nat -> seq<Event>)
      returns (peerId: Option<UserId>)
      requires Valid() && t !in teardowns
      requires forall i: nat, e | e in others(i) :: NotTeardown(e, t)
      modifies this
      ensures Valid() && old(history) + [Event.BeginTeardown(t, matchId)] <= history
      ensures t in teardowns && teardowns[t].matchId == matchId && teardowns[t].phase == Ended
      ensures teardowns[t].pair.Some? ==>
                IsMatch(Now(), matchId, teardowns[t].pair.value) && Holders(Now(), matchId) == {}
      ensures peerId == if teardowns[t].pair.Some? then PeerOf(teardowns[t].pair.value, actorId) else None
    {
      BeginTeardown(t, matchId);
      var participants := GetMatchParticipants(t, others);
      if participants.None? { return None; }
      peerId := PeerOf(participants.value, actorId);
      ReleaseBoth(t, others);
      DeleteMatch(t, others);
      TornDownIsEmpty(Now(), t);
    }

    /** A finished teardown of a registered match has emptied it for good. */
    lemma TornDownIsEmpty(s: State, t: nat)
      requires Valid() && s == Now() && t in s.teardowns
      requires s.teardowns[t].phase == Ended && s.teardowns[t].pair.Some?
      ensures IsMatch(s, s.teardowns[t].matchId, s.teardowns[t].pair.value)
      ensures Holders(s, s.teardowns[t].matchId) == {}
    {
      InvAlways(origin, history);
      var td := s.teardowns[t];
      assert Released(td, td.pair.value.userA) && Released(td, td.pair.value.userB);
      assert forall u | Holds(s, u, td.matchId) :: Claimed(s.runs[s.makers[td.matchId]], u);
    }
  }
}
