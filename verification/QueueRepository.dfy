/**
 The repository that keeps the queue, and the search phase of `tryMatch`: from the seeker's own
 snapshot to a selected partner, before anyone is locked.
 */
module QueueRepository {
  import opened Common
  import opened Matchmaking
  import opened QueueIndex
  import opened QueueSearch

  function IdSet(ids: seq<UserId>): set<UserId> { set u | u in ids }

  function ToSet(shards: seq<Shard>): set<Shard> { set s | s in shards }

  lemma ShardsOfGrows(countries: seq<string>, country: string)
    ensures ShardsOf(countries + [country]) == ShardsOf(countries) + {ShardFor(Some(country))}
  {
    var more := countries + [country];
    assert country in more && forall c | c in countries :: c in more;
    assert forall c | c in more :: c in countries || c == country;
  }

  lemma ToSetGrows(shards: seq<Shard>, more: seq<Shard>)
    ensures ToSet(shards + more) == ToSet(shards) + ToSet(more)
  {
  }

  lemma OneMoreCountry(shards: seq<Shard>, more: seq<Shard>, countries: seq<string>, i: nat)
    requires i < |countries| && ToSet(more) == ToSet(shards) + ShardsOf(countries[..i])
    ensures ToSet(more + [ShardFor(Some(countries[i]))]) == ToSet(shards) + ShardsOf(countries[..i + 1])
  {
    assert countries[..i + 1] == countries[..i] + [countries[i]];
    ShardsOfGrows(countries[..i], countries[i]);
    ToSetGrows(more, [ShardFor(Some(countries[i]))]);
  }

  /** shardsToScan: collects shards into a set, one preferred country at a time. */
  method CollectShards(seeker: Candidate, stageIndex: nat, stages: Ladder) returns (shards: seq<Shard>)
    ensures ToSet(shards) == ShardsToScan(seeker, stageIndex, stages)
  {
    var active := ActiveConstraints(stageIndex, stages);
    shards := [Global, ShardFor(seeker.country)];
    var countries := seeker.preferredCountries;
    shards := AddPreferred(shards, countries);
    if Country !in active {
      ToSetGrows(shards, [Eu, Na, Sa, As, Af, Oc]);
      shards := shards + [Eu, Na, Sa, As, Af, Oc];
    }
  }

  method AddPreferred(shards: seq<Shard>, countries: seq<string>) returns (more: seq<Shard>)
    ensures ToSet(more) == ToSet(shards) + ShardsOf(countries)
  {
    more := shards;
    for i := 0 to |countries|
      invariant ToSet(more) == ToSet(shards) + ShardsOf(countries[..i])
    {
      OneMoreCountry(shards, more, countries, i);
      more := more + [ShardFor(Some(countries[i]))];
    }
    assert countries[..|countries|] == countries;
  }

  /** The ids in the scanned part of the first shards, without the excluded one. */
  function Collected(ix: Index, shards: seq<Shard>, exclude: UserId): set<UserId> {
    Window(ix, ToSet(shards), exclude)
  }

  lemma CollectedGrows(ix: Index, shards: seq<Shard>, shard: Shard, exclude: UserId)
    ensures Collected(ix, shards + [shard], exclude) ==
            Collected(ix, shards, exclude) + (Users(Scanned(At(ix, shard))) - {exclude})
  {
    var more := ToSet(shards + [shard]);
    assert more == ToSet(shards) + {shard};
    assert forall u :: u in Window(ix, more, exclude) <==>
      u != exclude && exists s, m :: s in more && m in Scanned(At(ix, s)) && m.user == u;
    assert forall u :: u in Window(ix, ToSet(shards), exclude) <==>
      u != exclude && exists s, m :: s in ToSet(shards) && m in Scanned(At(ix, s)) && m.user == u;
  }

  /** Candidates in the order of their ids; an id without a snapshot gives none. */
  function Snapshots(entries: map<UserId, Candidate>, ids: seq<UserId>): seq<Candidate> {
    if ids == [] then []
    else Snapshots(entries, ids[..|ids| - 1]) +
         (if ids[|ids| - 1] in entries then [entries[ids[|ids| - 1]]] else [])
  }

  lemma {:induction false} SnapshotsMembers(entries: map<UserId, Candidate>, ids: seq<UserId>)
    ensures forall c :: c in Snapshots(entries, ids) <==> exists u :: u in ids && u in entries && c == entries[u]
  {
    if ids != [] {
      var front, last := ids[..|ids| - 1], ids[|ids| - 1];
      SnapshotsMembers(entries, front);
      assert forall u :: u in ids <==> u in front || u == last;
    }
  }

  lemma {:induction false} WithoutTwice(z: seq<Member>, gone: set<UserId>)
    ensures Without(Without(z, gone), gone) == Without(z, gone)
  {
    if z != [] {
      WithoutTwice(z[1..], gone);
      if z[0].user in gone {
        assert Without(z, gone) == Without(z[1..], gone);
      } else {
        assert Without(z, gone)[1..] == Without(z[1..], gone);
      }
    }
  }

  lemma OneMoreCleaned(shards: map<Shard, seq<Member>>, scanned: set<Shard>, s: Shard, stale: set<UserId>)
    ensures var before := CleanedShards(shards, scanned, stale);
      CleanedShards(shards, scanned + {s}, stale) ==
      if s in before then before[s := Without(before[s], stale)] else before
  {
    var before, after := CleanedShards(shards, scanned, stale), CleanedShards(shards, scanned + {s}, stale);
    if s in shards {
      WithoutTwice(shards[s], stale);
      assert after == before[s := Without(before[s], stale)];
    } else {
      assert after == before;
    }
  }

  /** What a scan found stale is what it removes. */
  lemma FoundStale(ix: Index, scanned: set<Shard>, exclude: UserId, ids: seq<UserId>, stale: seq<UserId>)
    requires IdSet(ids) == Window(ix, scanned, exclude)
    requires forall u :: u in stale <==> u in ids && u !in ix.entries
    ensures IdSet(stale) == Stale(ix, scanned, exclude)
  {
    assert forall u :: u in ids <==> u in Window(ix, scanned, exclude);
  }

  /** The index after a user's search: a scan of the shards worth scanning for them, if they are queued. */
  function SearchedIndex(ix: Index, seekerId: UserId, now: int, stages: Ladder): Index {
    if seekerId !in ix.entries then ix
    else
      var seeker := ix.entries[seekerId];
      ScanIndex(ix, ShardsToScan(seeker, StageOf(seeker, now, stages), stages), seekerId)
  }

  class Repository {
    var entries: map<UserId, Candidate>
    var shards: map<Shard, seq<Member>>

    ghost function Now(): Index
      reads this
    {
      Index(entries, shards)
    }

    constructor ()
      ensures Now() == EMPTY
    {
      entries, shards := map[], map[];
    }

    method Add(shard: Shard, user: UserId, score: int)
      modifies this`shards
      ensures shards == old(shards)[shard := ZAdd(At(old(Now()), shard), user, score)]
    {
      var z := if shard in shards then shards[shard] else [];
      shards := shards[shard := ZAdd(z, user, score)];
    }

    method Remove(shard: Shard, users: set<UserId>)
      modifies this`shards
      ensures shards == if shard in old(shards) then old(shards)[shard := Without(old(shards)[shard], users)]
                        else old(shards)
    {
      if shard in shards {
        shards := shards[shard := Without(shards[shard], users)];
      }
    }

    method Join(candidate: Candidate)
      modifies this
      ensures Now() == JoinIndex(old(Now()), candidate)
      ensures old(IndexOk(Now())) ==> IndexOk(Now()) && candidate.userId in entries
    {
      var shard := ShardFor(candidate.country);
      if old(IndexOk(Now())) { JoinKeeps(Now(), candidate); }
      entries := entries[candidate.userId := candidate];
      Add(shard, candidate.userId, candidate.queuedAt);
      if shard != Global {
        Add(Global, candidate.userId, candidate.queuedAt);
      }
    }

    method Leave(user: UserId, country: Option<string>)
      modifies this
      ensures Now() == LeaveIndex(old(Now()), user, country)
      ensures old(IndexOk(Now())) ==> IndexOk(Now())
    {
      if old(IndexOk(Now())) { LeaveKeeps(Now(), user, country); }
      entries := entries - {user};
      Remove(ShardFor(country), {user});
      Remove(Global, {user});
    }

    /** The TTL of the snapshot runs out; the sorted sets do not notice. */
    method Expire(user: UserId)
      modifies this`entries
      ensures Now() == ExpireEntry(old(Now()), user)
    {
      entries := entries - {user};
    }

    method GetEntry(user: UserId) returns (entry: Option<Candidate>)
      ensures entry.Some? <==> user in entries
      ensures entry.Some? && IndexOk(Now()) ==>
                entry.value == entries[user] && entry.value.userId == user &&
                Member(entry.value.queuedAt, user) in At(Now(), Global)
    {
      assert IndexOk(Now()) && user in entries ==> IsIndexed(Now(), user);
      entry := if user in entries then Some(entries[user]) else None;
    }

    /** The distinct ids in the scanned part of `shardList`, except the excluded one. */
    method CollectIds(shardList: seq<Shard>, exclude: UserId) returns (ids: seq<UserId>)
      ensures IdSet(ids) == Collected(Now(), shardList, exclude)
      ensures forall i, j | 0 <= i < j < |ids| :: ids[i] != ids[j]
    {
      ids := [];
      for i := 0 to |shardList|
        invariant IdSet(ids) == Collected(Now(), shardList[..i], exclude)
        invariant forall i, j | 0 <= i < j < |ids| :: ids[i] != ids[j]
      {
        CollectedGrows(Now(), shardList[..i], shardList[i], exclude);
        assert shardList[..i + 1] == shardList[..i] + [shardList[i]];
        var range := Scanned(if shardList[i] in shards then shards[shardList[i]] else []);
        ids := AppendNew(ids, range, exclude);
      }
      assert shardList[..|shardList|] == shardList;
    }

    static method AppendNew(ids: seq<UserId>, range: seq<Member>, exclude: UserId) returns (more: seq<UserId>)
      requires forall i, j | 0 <= i < j < |ids| :: ids[i] != ids[j]
      ensures IdSet(more) == IdSet(ids) + (Users(range) - {exclude})
      ensures forall i, j | 0 <= i < j < |more| :: more[i] != more[j]
    {
      more := ids;
      for k := 0 to |range|
        invariant forall u :: u in more <==> u in ids || (u != exclude && exists m :: m in range[..k] && m.user == u)
        invariant forall i, j | 0 <= i < j < |more| :: more[i] != more[j]
      {
        var id := range[k].user;
        assert range[..k + 1] == range[..k] + [range[k]];
        if id != exclude && id !in more {
          more := more + [id];
        }
      }
      assert range[..|range|] == range;
    }

    /** The two lists a scan sorts its ids into. */
    method ReadSnapshots(ids: seq<UserId>) returns (candidates: seq<Candidate>, stale: seq<UserId>)
      ensures forall c :: c in candidates <==> exists u :: u in ids && u in entries && c == entries[u]
      ensures forall u :: u in stale <==> u in ids && u !in entries
    {
      candidates, stale := [], [];
      for i := 0 to |ids|
        invariant candidates == Snapshots(entries, ids[..i])
        invariant forall u :: u in stale <==> u in ids[..i] && u !in entries
      {
        assert ids[..i + 1] == ids[..i] + [ids[i]];
        if ids[i] in entries {
          candidates := candidates + [entries[ids[i]]];
        } else {
          stale := stale + [ids[i]];
        }
      }
      assert ids[..|ids|] == ids;
      SnapshotsMembers(entries, ids);
    }

    /** One ZREM per scanned shard. */
    method RemoveStale(shardList: seq<Shard>, stale: set<UserId>)
      modifies this`shards
      ensures shards == CleanedShards(old(shards), ToSet(shardList), stale)
    {
      for i := 0 to |shardList|
        invariant shards == CleanedShards(old(shards), ToSet(shardList[..i]), stale)
      {
        assert shardList[..i + 1] == shardList[..i] + [shardList[i]];
        ToSetGrows(shardList[..i], [shardList[i]]);
        OneMoreCleaned(old(shards), ToSet(shardList[..i]), shardList[i], stale);
        Remove(shardList[i], stale);
      }
      assert shardList[..|shardList|] == shardList;
    }

    /**
     loadCandidates: the live snapshots among the scanned ids. What was found stale leaves the
     shards that were looked at, and nothing else changes.
    */
    method LoadCandidates(shardList: seq<Shard>, exclude: UserId) returns (candidates: seq<Candidate>)
      modifies this`shards
      ensures IsPoolOf(candidates, old(Now()), ToSet(shardList), exclude)
      ensures Now() == ScanIndex(old(Now()), ToSet(shardList), exclude)
    {
      var ids := CollectIds(shardList, exclude);
      var stale;
      candidates, stale := ReadSnapshots(ids);
      PoolFromIds(Now(), ToSet(shardList), exclude, ids, candidates);
      FoundStale(Now(), ToSet(shardList), exclude, ids, stale);
      RemoveStale(shardList, IdSet(stale));
    }

    /**
     The search phase of `tryMatch`: nobody for a user who is not queued or already in a match
     (`busy`); otherwise the best legal partner among the scanned waiters - among all waiters, when
     the global shard fits one scan.
    */
    method FindPartner(seekerId: UserId, busy: bool, now: int, stages: Ladder, recent: seq<UserId>)
      returns (result: Option<Selection>)
      requires IndexOk(Now())
      modifies this`shards
      ensures IndexOk(Now()) && entries == old(entries)
      ensures seekerId !in entries || busy ==> result.None?
      ensures Now() == if busy then old(Now()) else SearchedIndex(old(Now()), seekerId, now, stages)
      ensures result.Some? ==> result.value.candidate.userId != seekerId && result.value.candidate.userId in entries &&
                               entries[result.value.candidate.userId] == result.value.candidate
      ensures result.Some? ==>
                Legal(entries[seekerId].(recentPartnerIds := recent), result.value.candidate, now, stages, {}) &&
                result.value.candidate.userId !in entries[seekerId].excludedUserIds &&
                seekerId !in result.value.candidate.excludedUserIds
      ensures seekerId in entries && !busy ==>
        var shardSet := ShardsToScan(entries[seekerId], StageOf(entries[seekerId], now, stages), stages);
        exists pool :: IsPoolOf(pool, old(Now()), shardSet, seekerId) &&
                       IsBest(entries[seekerId].(recentPartnerIds := recent), pool, now, stages, {}, result)
      ensures seekerId in entries && !busy && |At(old(Now()), Global)| <= SCAN_LIMIT ==>
        forall everybody | IsEverybody(everybody, Now(), seekerId) ::
          IsBest(entries[seekerId].(recentPartnerIds := recent), everybody, now, stages, {}, result)
    {
      var entry := GetEntry(seekerId);
      if entry.None? || busy { return None; }
      assert IsIndexed(Now(), seekerId);
      var stage := RelaxationStageFor(entry.value, now, stages);
      var shardList := CollectShards(entry.value, stage, stages);
      var pool := LoadCandidates(shardList, seekerId);
      ScanKeeps(old(Now()), ToSet(shardList), seekerId);
      PoolIsSound(old(Now()), ToSet(shardList), seekerId, pool);
      var seeker := entry.value.(recentPartnerIds := recent);
      result := SelectBestMatch(seeker, pool, now, stages, {});
      if |At(old(Now()), Global)| <= SCAN_LIMIT {
        EverybodyIsScanned(old(Now()), ToSet(shardList), seekerId, pool);
        forall everybody | IsEverybody(everybody, Now(), seekerId)
          ensures IsBest(seeker, everybody, now, stages, {}, result)
        {
          SameMembersSameBest(seeker, pool, everybody, now, stages, result);
        }
      }
    }
  }

  lemma PoolFromIds(ix: Index, shards: set<Shard>, exclude: UserId, ids: seq<UserId>, candidates: seq<Candidate>)
    requires IdSet(ids) == Window(ix, shards, exclude)
    requires forall c :: c in candidates <==> exists u :: u in ids && u in ix.entries && c == ix.entries[u]
    ensures IsPoolOf(candidates, ix, shards, exclude)
  {
    assert forall u :: u in ids <==> u in Window(ix, shards, exclude);
  }

  lemma SameMembersSameBest(seeker: Candidate, pool: seq<Candidate>, pool': seq<Candidate>, now: int,
                            stages: Ladder, r: Option<Selection>)
    requires forall c :: c in pool <==> c in pool'
    requires IsBest(seeker, pool, now, stages, {}, r)
    ensures IsBest(seeker, pool', now, stages, {}, r)
  {
  }
}
