/** Searching the index: agreement with an exhaustive search, and what lazy cleanup achieves. */
module QueueSearch {
  import opened Common
  import opened Matchmaking
  import opened QueueIndex
  import opened SelectionProperties

  // ---------------------------------------------------------------------------------------
  // The sharded search refines the exhaustive one
  // ---------------------------------------------------------------------------------------

  /** With a global shard that fits one scan, every live entry is scanned. */
  lemma EverybodyIsScanned(ix: Index, shards: set<Shard>, exclude: UserId, pool: seq<Candidate>)
    requires IndexOk(ix) && Global in shards && |At(ix, Global)| <= SCAN_LIMIT
    requires IsPoolOf(pool, ix, shards, exclude)
    ensures IsEverybody(pool, ix, exclude)
  {
    forall u | u in ix.entries && u != exclude ensures u in Window(ix, shards, exclude) {
      assert IsIndexed(ix, u);
      assert Member(ix.entries[u].queuedAt, u) in Scanned(At(ix, Global));
    }
  }

  /** Whatever the size, a scan offers only live entries, each under its own id, never the seeker. */
  lemma PoolIsSound(ix: Index, shards: set<Shard>, exclude: UserId, pool: seq<Candidate>)
    requires IndexOk(ix) && IsPoolOf(pool, ix, shards, exclude)
    ensures forall c | c in pool :: c.userId in ix.entries && ix.entries[c.userId] == c && c.userId != exclude
    ensures DistinctIds(pool)
  {
    forall c | c in pool
      ensures c.userId in ix.entries && ix.entries[c.userId] == c && c.userId != exclude
    {
      var u :| u in Window(ix, shards, exclude) && u in ix.entries && c == ix.entries[u];
      assert IsIndexed(ix, u);
    }
  }

  /**
   After any sequence of joins, leaves, expiries and scans that leaves at most 250 members in the
   global shard, searching the shards a seeker scans gives exactly the answer of searching all
   live entries.
  */
  lemma ShardedSearchIsExhaustive(events: seq<Event>, seeker: Candidate, now: int, stages: Ladder,
                                  pool: seq<Candidate>, everybody: seq<Candidate>,
                                  found: Option<Selection>, best: Option<Selection>)
    requires var ix := Execute(EMPTY, events);
      var shards := ShardsToScan(seeker, StageOf(seeker, now, stages), stages);
      |At(ix, Global)| <= 250 &&
      IsPoolOf(pool, ix, shards, seeker.userId) && IsEverybody(everybody, ix, seeker.userId)
    requires IsBest(seeker, pool, now, stages, {}, found) && IsBest(seeker, everybody, now, stages, {}, best)
    ensures found == best
  {
    var ix := Execute(EMPTY, events);
    var shards := ShardsToScan(seeker, StageOf(seeker, now, stages), stages);
    LiveWaitersStayIndexed(events);
    EverybodyIsScanned(ix, shards, seeker.userId, pool);
    PoolIsSound(ix, shards, seeker.userId, pool);
    SamePoolSameChoice(seeker, pool, everybody, now, stages, {}, found, best);
  }

  lemma InReach(shard: Shard, own: Shard, named: set<Shard>, insists: bool)
    ensures shard in ReachOf(own, named, insists) <==> shard == Global || shard == own || shard in named || !insists
  {
  }

  lemma NamedIsReached(countries: seq<string>, country: Option<string>)
    requires country.Some? && country.value in countries
    ensures ShardFor(country) in ShardsOf(countries)
  {
    assert country == Some(country.value);
  }

  /**
   Exactly whose shard is scanned: that of every legal partner, unless the seeker still insists on
   the country constraint without naming any country. Only then a partner from another region can
   be found through the global shard alone.
  */
  lemma PartnersShardIsScanned(seeker: Candidate, partner: Candidate, now: int, stages: Ladder, occupied: set<UserId>)
    requires Legal(seeker, partner, now, stages, occupied)
    ensures var shard := ShardFor(partner.country);
      shard in ShardsToScan(seeker, StageOf(seeker, now, stages), stages) <==>
      shard == Global || shard == ShardFor(seeker.country) ||
      seeker.preferredCountries != [] || Country !in ActiveFor(seeker, now, stages)
  {
    var shard, named := ShardFor(partner.country), ShardsOf(seeker.preferredCountries);
    InReach(shard, ShardFor(seeker.country), named, Country in ActiveFor(seeker, now, stages));
    if Country in ActiveFor(seeker, now, stages) && seeker.preferredCountries != [] {
      NamedIsReached(seeker.preferredCountries, partner.country);
    }
  }

  // ---------------------------------------------------------------------------------------
  // Lazy cleanup
  // ---------------------------------------------------------------------------------------

  ghost predicate IsListed(z: seq<Member>, u: UserId) { exists m :: m in z && m.user == u }

  /** The members ahead of `u`. */
  function Ahead(z: seq<Member>, u: UserId): seq<Member> {
    if z == [] || z[0].user == u then [] else [z[0]] + Ahead(z[1..], u)
  }

  /** How many members belong to `users`. */
  function CountOf(z: seq<Member>, users: set<UserId>): nat {
    if z == [] then 0 else (if z[0].user in users then 1 else 0) + CountOf(z[1..], users)
  }

  /** Ids a scan for `exclude` never cleans up: live entries and the seeker itself. */
  function Kept(ix: Index, exclude: UserId): set<UserId> { ix.entries.Keys + {exclude} }

  /** The number of stale ids ahead of `u`. */
  function StaleAhead(ix: Index, z: seq<Member>, exclude: UserId, u: UserId): int {
    |Ahead(z, u)| - CountOf(Ahead(z, u), Kept(ix, exclude))
  }

  /** `f` applied `n` times. */
  function Iterate<T>(f: T -> T, x: T, n: nat): T { if n == 0 then x else f(Iterate(f, x, n - 1)) }

  lemma {:induction false} IterateFromFirst<T>(f: T -> T, x: T, n: nat)
    ensures Iterate(f, f(x), n) == Iterate(f, x, n + 1)
  {
    if n != 0 {
      IterateFromFirst(f, x, n - 1);
    }
  }

  /** If every step from a waiting state that is not done shrinks a measure, `done` comes in time. */
  lemma {:induction false} DescentEnds<T(!new)>(f: T -> T, waiting: T -> bool, done: T -> bool, measure: T -> int, x: T)
    returns (n: nat)
    requires waiting(x)
    requires forall y | waiting(y) :: measure(y) >= 0
    requires forall y | waiting(y) && !done(y) :: waiting(f(y)) && measure(f(y)) < measure(y)
    ensures n <= measure(x) && done(Iterate(f, x, n))
    decreases measure(x)
  {
    if done(x) {
      n := 0;
    } else {
      var rest := DescentEnds(f, waiting, done, measure, f(x));
      IterateFromFirst(f, x, rest);
      n := rest + 1;
    }
  }

  /** The index after `n` scans by the same seeker. */
  function ScanTimes(ix: Index, shards: set<Shard>, exclude: UserId, n: nat): Index {
    Iterate((i: Index) => ScanIndex(i, shards, exclude), ix, n)
  }

  lemma {:induction false} ScansKeepEntries(ix: Index, shards: set<Shard>, exclude: UserId, n: nat)
    ensures ScanTimes(ix, shards, exclude, n).entries == ix.entries
  {
    if n != 0 {
      ScansKeepEntries(ix, shards, exclude, n - 1);
    }
  }

  lemma {:induction false} CountBounds(z: seq<Member>, users: set<UserId>)
    ensures CountOf(z, users) <= |z|
    ensures CountOf(z, users) == |z| ==> forall m | m in z :: m.user in users
  {
    if z != [] {
      CountBounds(z[1..], users);
    }
  }

  lemma {:induction false} CountOfPrefix(z: seq<Member>, n: nat, users: set<UserId>)
    requires n <= |z|
    ensures CountOf(z[..n], users) <= CountOf(z, users)
  {
    if n != 0 {
      assert z[..n][1..] == z[1..][..n - 1];
      CountOfPrefix(z[1..], n - 1, users);
    }
  }

  lemma {:induction false} AheadIsPrefix(z: seq<Member>, u: UserId)
    ensures |Ahead(z, u)| <= |z| && Ahead(z, u) == z[..|Ahead(z, u)|]
    ensures IsListed(z, u) ==> |Ahead(z, u)| < |z| && z[|Ahead(z, u)|].user == u
  {
    if z != [] && z[0].user != u {
      AheadIsPrefix(z[1..], u);
      if IsListed(z, u) {
        var m :| m in z && m.user == u;
        assert m in z[1..];
      }
    }
  }

  /** Removing stale members removes them from ahead of `u`, and nothing else. */
  lemma {:induction false} AheadWithout(z: seq<Member>, gone: set<UserId>, u: UserId)
    requires u !in gone
    ensures Ahead(Without(z, gone), u) == Without(Ahead(z, u), gone)
  {
    if z != [] && z[0].user != u {
      AheadWithout(z[1..], gone, u);
      assert Ahead(z, u)[1..] == Ahead(z[1..], u);
      if z[0].user in gone {
        assert Without(z, gone) == Without(z[1..], gone);
      } else {
        assert Without(z, gone)[1..] == Without(z[1..], gone);
      }
    }
  }

  lemma {:induction false} WithoutCounts(z: seq<Member>, gone: set<UserId>, kept: set<UserId>)
    requires gone !! kept
    ensures CountOf(Without(z, gone), kept) == CountOf(z, kept)
    ensures |Without(z, gone)| <= |z|
    ensures (exists m :: m in z && m.user in gone) ==> |Without(z, gone)| < |z|
  {
    if z != [] {
      WithoutCounts(z[1..], gone, kept);
      if z[0].user in gone {
        assert Without(z, gone) == Without(z[1..], gone);
      } else {
        assert Without(z, gone)[1..] == Without(z[1..], gone);
        if exists m :: m in z && m.user in gone {
          var m :| m in z && m.user in gone;
          assert m in z[1..];
        }
      }
    }
  }

  /** Close enough to the front, `u` is in the window of its shard. */
  lemma FrontIsScanned(ix: Index, shards: set<Shard>, exclude: UserId, s: Shard, u: UserId)
    requires s in shards && u != exclude && IsListed(At(ix, s), u)
    requires |Ahead(At(ix, s), u)| < SCAN_LIMIT
    ensures u in Window(ix, shards, exclude)
  {
    var z, n := At(ix, s), |Ahead(At(ix, s), u)|;
    AheadIsPrefix(z, u);
    assert Scanned(z)[n] == z[n] && z[n] in Scanned(z);
  }

  /** `u` waits in shard `s`, with fewer ids ahead that are never cleaned up than one scan reads. */
  ghost predicate IsWaiting(ix: Index, shards: set<Shard>, exclude: UserId, s: Shard, u: UserId) {
    s in shards && u in ix.entries && u != exclude && IsListed(At(ix, s), u) &&
    CountOf(Ahead(At(ix, s), u), Kept(ix, exclude)) < SCAN_LIMIT
  }

  /** A scan that does not reach `u` removes at least one stale id ahead of it. */
  lemma MissedScanCleansUp(ix: Index, shards: set<Shard>, exclude: UserId, s: Shard, u: UserId)
    requires IsWaiting(ix, shards, exclude, s, u) && u !in Window(ix, shards, exclude)
    ensures var ix' := ScanIndex(ix, shards, exclude);
      ix'.entries == ix.entries && IsWaiting(ix', shards, exclude, s, u) &&
      StaleAhead(ix', At(ix', s), exclude, u) < StaleAhead(ix, At(ix, s), exclude, u)
  {
    var z, stale := At(ix, s), Stale(ix, shards, exclude);
    var ahead := Ahead(z, u);
    if |ahead| < SCAN_LIMIT {
      FrontIsScanned(ix, shards, exclude, s, u);
    }
    var m := StaleInWindow(ix, shards, exclude, s, u);
    assert m in ahead && m.user in stale;
    AheadWithout(z, stale, u);
    WithoutCounts(ahead, stale, Kept(ix, exclude));
    WithoutMembers(z, stale);
  }

  lemma StaleInWindow(ix: Index, shards: set<Shard>, exclude: UserId, s: Shard, u: UserId) returns (m: Member)
    requires s in shards && |Ahead(At(ix, s), u)| >= SCAN_LIMIT
    requires CountOf(Ahead(At(ix, s), u), Kept(ix, exclude)) < SCAN_LIMIT
    ensures m in Ahead(At(ix, s), u) && m.user in Stale(ix, shards, exclude)
  {
    var z := At(ix, s);
    var ahead := Ahead(z, u);
    AheadIsPrefix(z, u);
    var first := ahead[..SCAN_LIMIT];
    assert first == Scanned(z);
    CountOfPrefix(ahead, SCAN_LIMIT, Kept(ix, exclude));
    m := SomeoneUncounted(first, Kept(ix, exclude));
    assert m in Scanned(At(ix, s));
  }

  lemma {:induction false} SomeoneUncounted(z: seq<Member>, users: set<UserId>) returns (m: Member)
    requires CountOf(z, users) < |z|
    ensures m in z && m.user !in users
  {
    if z[0].user in users {
      m := SomeoneUncounted(z[1..], users);
    } else {
      m := z[0];
    }
  }

  /**
   Lazy cleanup reaches every old enough waiter: with fewer than 250 ids that are never cleaned up
   ahead of a live entry, and k stale ones, one of the first k + 1 scans returns it.
  */
  lemma WaiterIsReached(ix: Index, shards: set<Shard>, exclude: UserId, s: Shard, u: UserId)
    returns (scans: nat)
    requires IsWaiting(ix, shards, exclude, s, u)
    ensures scans <= StaleAhead(ix, At(ix, s), exclude, u)
    ensures u in Window(ScanTimes(ix, shards, exclude, scans), shards, exclude)
    ensures ScanTimes(ix, shards, exclude, scans).entries == ix.entries
  {
    var scan := (i: Index) => ScanIndex(i, shards, exclude);
    var waiting := (i: Index) => IsWaiting(i, shards, exclude, s, u);
    var reached := (i: Index) => u in Window(i, shards, exclude);
    var stale := (i: Index) => StaleAhead(i, At(i, s), exclude, u);
    forall i | waiting(i) ensures stale(i) >= 0 {
      StaleAheadIsNatural(i, At(i, s), exclude, u);
    }
    forall i | waiting(i) && !reached(i) ensures waiting(scan(i)) && stale(scan(i)) < stale(i) {
      MissedScanCleansUp(i, shards, exclude, s, u);
    }
    scans := DescentEnds(scan, waiting, reached, stale, ix);
    ScansKeepEntries(ix, shards, exclude, scans);
  }

  lemma StaleAheadIsNatural(ix: Index, z: seq<Member>, exclude: UserId, u: UserId)
    ensures StaleAhead(ix, z, exclude, u) >= 0
  {
    CountBounds(Ahead(z, u), Kept(ix, exclude));
  }

  /** In a sorted set exactly the longer-waiting members are ahead: nobody is overtaken. */
  lemma {:induction false} AheadIsOlder(z: seq<Member>, m: Member)
    requires IsSortedSet(z) && m in z
    ensures forall n :: n in Ahead(z, m.user) <==>
      n in z && (n.score < m.score || (n.score == m.score && n.user < m.user))
  {
    TailSorted(z);
    if z[0].user == m.user {
      assert z[0] == m;
      assert forall n | n in z :: n == m || n in z[1..];
    } else {
      assert m in z[1..];
      AheadIsOlder(z[1..], m);
      assert forall n :: n in z <==> n == z[0] || n in z[1..];
    }
  }
}
