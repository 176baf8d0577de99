/**
 One queue, seen twice: the pairing protocol knows who is queued, the index knows under which snapshot
 and in which shards. Here the index follows the events of the protocol, so that the two never differ
 about who is waiting.
*/
module SharedQueue {
  import opened Common
  import opened Matchmaking
  import opened QueueIndex
  import opened QueueRepository
  import P = Pairing

  /**
   What an event of the protocol leaves open about the index: who joins with which snapshot, under
   which country somebody leaves, whether a departure is an expiry, and which shards a search scans.
  */
  datatype Detail = Detail(candidate: Candidate, country: Option<string>, partnerCountry: Option<string>,
                           expires: bool, shards: seq<Shard>)

  /** The details of a run's own events, and of everybody else's. */
  datatype Details = Details(run: nat, own: Detail, others: nat -> Detail)

  function DetailOf(ds: Details, e: P.Event, i: nat): Detail {
    if e == P.Advance(ds.run) || (e.Select? && e.run == ds.run) then ds.own else ds.others(i)
  }

  /** What event `e`, happening in `s`, does to the index. */
  function Follow(ix: Index, s: P.State, e: P.Event, d: Detail): Index {
    match e
    case Join(u) => JoinIndex(ix, d.candidate.(userId := u))
    case Leave(u) => if d.expires then ExpireEntry(ix, u) else LeaveIndex(ix, u, d.country)
    case Select(_, seeker, _, _) => ScanIndex(ix, ToSet(d.shards), seeker)
    case Advance(r) =>
      if r in s.runs && s.runs[r].phase == P.LeaveSeeker then LeaveIndex(ix, s.runs[r].seeker, d.country)
      else if r in s.runs && s.runs[r].phase == P.LeavePartner then LeaveIndex(ix, s.runs[r].partner, d.partnerCountry)
      else ix
    case _ => ix
  }

  function FollowAll(ix: Index, s: P.State, events: seq<P.Event>, ds: Details): Index {
    if events == [] then ix
    else
      var front, last := events[..|events| - 1], events[|events| - 1];
      Follow(FollowAll(ix, s, front, ds), P.Execute(s, front), last, DetailOf(ds, last, |front|))
  }

  /** The two views agree on who is queued, and the index is in order. */
  ghost predicate Linked(s: P.State, ix: Index) { IndexOk(ix) && s.queued == ix.entries.Keys }

  lemma ExpireKeeps(ix: Index, user: UserId)
    requires IndexOk(ix)
    ensures IndexOk(ExpireEntry(ix, user))
  {
    forall v | v in ExpireEntry(ix, user).entries ensures IsIndexed(ExpireEntry(ix, user), v) {
      assert IsIndexed(ix, v);
    }
  }

  lemma JoinLinks(s: P.State, s': P.State, ix: Index, c: Candidate)
    requires Linked(s, ix) && s'.queued == s.queued + {c.userId}
    ensures Linked(s', JoinIndex(ix, c))
  {
    JoinKeeps(ix, c);
    JoinEntries(ix, c);
  }

  lemma JoinEntries(ix: Index, c: Candidate)
    ensures JoinIndex(ix, c).entries == ix.entries[c.userId := c]
  {
  }

  lemma LeaveLinks(s: P.State, s': P.State, ix: Index, user: UserId, country: Option<string>)
    requires Linked(s, ix) && s'.queued == s.queued - {user}
    ensures Linked(s', LeaveIndex(ix, user, country))
  {
    LeaveKeeps(ix, user, country);
    LeaveEntries(ix, user, country);
  }

  lemma LeaveEntries(ix: Index, user: UserId, country: Option<string>)
    ensures LeaveIndex(ix, user, country).entries == ix.entries - {user}
  {
  }

  lemma ScanLinks(s: P.State, s': P.State, ix: Index, shards: set<Shard>, exclude: UserId)
    requires Linked(s, ix) && s'.queued == s.queued
    ensures Linked(s', ScanIndex(ix, shards, exclude))
  {
    ScanKeeps(ix, shards, exclude);
  }

  /** What the protocol's events do to the set of queued users. */
  lemma QueuedFollows(s: P.State, e: P.Event)
    ensures P.Next(s, e).queued ==
      match e
      case Join(u) => s.queued + {u}
      case Leave(u) => s.queued - {u}
      case Advance(r) => if r in s.runs then P.QueuedAfter(s.queued, s.runs[r]) else s.queued
      case _ => s.queued
  {
  }

  lemma FollowKeepsLinked(s: P.State, ix: Index, e: P.Event, d: Detail)
    requires Linked(s, ix)
    ensures Linked(P.Next(s, e), Follow(ix, s, e, d))
  {
    var s' := P.Next(s, e);
    QueuedFollows(s, e);
    match e
    case Join(u) => JoinLinks(s, s', ix, d.candidate.(userId := u));
    case Leave(u) =>
      if d.expires { ExpireKeeps(ix, u); } else { LeaveLinks(s, s', ix, u, d.country); }
    case Select(_, seeker, _, _) => ScanLinks(s, s', ix, ToSet(d.shards), seeker);
    case Advance(r) =>
      if r in s.runs && s.runs[r].phase == P.LeaveSeeker {
        LeaveLinks(s, s', ix, s.runs[r].seeker, d.country);
      } else if r in s.runs && s.runs[r].phase == P.LeavePartner {
        LeaveLinks(s, s', ix, s.runs[r].partner, d.partnerCountry);
      }
    case _ =>
  }

  /** Whoever joins, leaves, expires, searches or is paired: the views never part. */
  lemma {:induction false} FollowAllKeepsLinked(s: P.State, ix: Index, events: seq<P.Event>, ds: Details)
    requires Linked(s, ix)
    ensures Linked(P.Execute(s, events), FollowAll(ix, s, events, ds))
  {
    if events != [] {
      var front, last := events[..|events| - 1], events[|events| - 1];
      FollowAllKeepsLinked(s, ix, front, ds);
      FollowKeepsLinked(P.Execute(s, front), FollowAll(ix, s, front, ds), last, DetailOf(ds, last, |front|));
    }
  }

  /** No snapshot, and no trace in the global shard or in the one that belongs to `country`. */
  ghost predicate IsGone(ix: Index, user: UserId, country: Option<string>) {
    user !in ix.entries &&
    (forall m | m in At(ix, Global) :: m.user != user) && (forall m | m in At(ix, ShardFor(country)) :: m.user != user)
  }

  lemma RemoveFromRemoves(ix: Index, shard: Shard, user: UserId)
    ensures forall m | m in At(RemoveFrom(ix, shard, {user}), shard) :: m.user != user
    ensures forall s, m | m in At(RemoveFrom(ix, shard, {user}), s) :: m in At(ix, s)
  {
    WithoutMembers(At(ix, shard), {user});
  }

  lemma LeavingIsThorough(ix: Index, user: UserId, country: Option<string>)
    ensures IsGone(LeaveIndex(ix, user, country), user, country)
  {
    var own, gone := ShardFor(country), ix.(entries := ix.entries - {user});
    RemoveFromRemoves(gone, own, user);
    RemoveFromRemoves(RemoveFrom(gone, own, {user}), Global, user);
  }
}
