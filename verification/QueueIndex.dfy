/**
 The waiting queue in Redis: one snapshot per waiter, and sorted sets that index the waiters by
 region and globally. Snapshots expire on their own, so the index may list users who are gone;
 scans are limited and remove what they find stale.
 */
module QueueIndex {
  import opened Common
  import opened Matchmaking

  datatype Shard = Global | Eu | Na | Sa | As | Af | Oc

  const SCAN_LIMIT: nat := 250

  // ---------------------------------------------------------------------------------------
  // Shards
  // ---------------------------------------------------------------------------------------

  function ToUpper(s: string): string {
    seq(|s|, i requires 0 <= i < |s| => if 'a' <= s[i] <= 'z' then ((s[i] as int) - 32) as char else s[i])
  }

  /** Coarse continental buckets. */
  const EUROPE: seq<string> := [
    "PT", "ES", "FR", "DE", "IT", "GB", "IE", "NL", "BE", "LU", "AT", "CH", "PL", "CZ", "SK", "HU", "RO",
    "BG", "GR", "HR", "SI", "RS", "SE", "NO", "DK", "FI", "IS", "EE", "LV", "LT", "UA", "TR"]
  const NORTH_AMERICA: seq<string> := ["US", "CA", "MX"]
  const SOUTH_AMERICA: seq<string> := ["BR", "AR", "CL", "CO", "PE", "UY", "PY", "BO", "EC", "VE"]
  const ASIA: seq<string> := [
    "JP", "KR", "CN", "TW", "HK", "SG", "MY", "TH", "VN", "PH", "ID", "IN", "PK", "BD", "AE", "SA", "IL"]
  const AFRICA: seq<string> := ["ZA", "NG", "KE", "EG", "MA", "GH", "TZ", "ET", "AO", "MZ", "CV"]
  const OCEANIA: seq<string> := ["AU", "NZ", "FJ"]

  /** A country outside the table belongs to no region. */
  function RegionOf(country: string): Shard {
    if country in EUROPE then Eu
    else if country in NORTH_AMERICA then Na
    else if country in SOUTH_AMERICA then Sa
    else if country in ASIA then As
    else if country in AFRICA then Af
    else if country in OCEANIA then Oc
    else Global
  }

  function ShardFor(country: Option<string>): Shard {
    if country.None? || country.value == "" then Global else RegionOf(ToUpper(country.value))
  }

  function ShardsOf(countries: seq<string>): set<Shard> { set c | c in countries :: ShardFor(Some(c)) }

  /** Upper and lower case are the same country. */
  lemma InShard(s: string, code: string)
    requires |s| == |code| > 0
    requires forall i | 0 <= i < |s| ::
      if 'a' <= s[i] <= 'z' then code[i] as int == s[i] as int - 32 else code[i] == s[i]
    ensures ShardFor(Some(s)) == RegionOf(code)
  {
    assert ToUpper(s) == code;
  }

  lemma NotListed(list: seq<string>, country: string)
    requires |country| == 2
    requires forall i | 0 <= i < |list| :: |list[i]| == 2 && (list[i][0] != country[0] || list[i][1] != country[1])
    ensures country !in list
  {
  }

  lemma Portugal()
    ensures RegionOf("PT") == Eu
  {
    assert EUROPE[0] == "PT";
  }

  lemma Turkey()
    ensures RegionOf("TR") == Eu
  {
    assert EUROPE[31] == "TR";
  }

  lemma Mexico()
    ensures RegionOf("MX") == Na
  {
    NotListed(EUROPE, "MX");
    assert NORTH_AMERICA[2] == "MX";
  }

  lemma Brazil()
    ensures RegionOf("BR") == Sa
  {
    NotListed(EUROPE, "BR");
    NotListed(NORTH_AMERICA, "BR");
    assert SOUTH_AMERICA[0] == "BR";
  }

  lemma Japan()
    ensures RegionOf("JP") == As
  {
    NotListed(EUROPE, "JP");
    NotListed(NORTH_AMERICA, "JP");
    NotListed(SOUTH_AMERICA, "JP");
    assert ASIA[0] == "JP";
  }

  lemma SouthAfrica()
    ensures RegionOf("ZA") == Af
  {
    NotListed(EUROPE, "ZA");
    NotListed(NORTH_AMERICA, "ZA");
    NotListed(SOUTH_AMERICA, "ZA");
    NotListed(ASIA, "ZA");
    assert AFRICA[0] == "ZA";
  }

  lemma Fiji()
    ensures RegionOf("FJ") == Oc
  {
    NotListed(EUROPE, "FJ");
    NotListed(NORTH_AMERICA, "FJ");
    NotListed(SOUTH_AMERICA, "FJ");
    NotListed(ASIA, "FJ");
    NotListed(AFRICA, "FJ");
    assert OCEANIA[2] == "FJ";
  }

  lemma Antarctica()
    ensures RegionOf("AQ") == Global
  {
    NotListed(EUROPE, "AQ");
    NotListed(NORTH_AMERICA, "AQ");
    NotListed(SOUTH_AMERICA, "AQ");
    NotListed(ASIA, "AQ");
    NotListed(AFRICA, "AQ");
    NotListed(OCEANIA, "AQ");
  }

  lemma PortugalShard()
    ensures ShardFor(Some("PT")) == Eu && ShardFor(Some("pt")) == Eu
  {
    Portugal();
    InShard("PT", "PT");
    InShard("pt", "PT");
  }

  lemma TurkeyShard()
    ensures ShardFor(Some("TR")) == Eu && ShardFor(Some("Tr")) == Eu
  {
    Turkey();
    InShard("TR", "TR");
    InShard("Tr", "TR");
  }

  lemma MexicoShard()
    ensures ShardFor(Some("MX")) == Na && ShardFor(Some("mx")) == Na
  {
    Mexico();
    InShard("MX", "MX");
    InShard("mx", "MX");
  }

  lemma BrazilShard()
    ensures ShardFor(Some("BR")) == Sa && ShardFor(Some("br")) == Sa
  {
    Brazil();
    InShard("BR", "BR");
    InShard("br", "BR");
  }

  lemma JapanShard()
    ensures ShardFor(Some("JP")) == As && ShardFor(Some("jp")) == As
  {
    Japan();
    InShard("JP", "JP");
    InShard("jp", "JP");
  }

  lemma SouthAfricaShard()
    ensures ShardFor(Some("ZA")) == Af && ShardFor(Some("za")) == Af
  {
    SouthAfrica();
    InShard("ZA", "ZA");
    InShard("za", "ZA");
  }

  lemma FijiShard()
    ensures ShardFor(Some("FJ")) == Oc && ShardFor(Some("fj")) == Oc
  {
    Fiji();
    InShard("FJ", "FJ");
    InShard("fj", "FJ");
  }

  lemma NoShard()
    ensures ShardFor(None) == Global && ShardFor(Some("")) == Global && ShardFor(Some("AQ")) == Global
  {
    Antarctica();
    InShard("AQ", "AQ");
  }

  /** Global, the seeker's own and the named shards; every region once the country constraint is gone. */
  function ReachOf(own: Shard, named: set<Shard>, insists: bool): set<Shard> {
    {Global, own} + named + (if insists then {} else {Eu, Na, Sa, As, Af, Oc})
  }

  /** The shards worth scanning. */
  function ShardsToScan(seeker: Candidate, stageIndex: nat, stages: Ladder): set<Shard> {
    ReachOf(ShardFor(seeker.country), ShardsOf(seeker.preferredCountries),
            Country in ActiveConstraints(stageIndex, stages))
  }

  // ---------------------------------------------------------------------------------------
  // Sorted sets: members in ascending (score, user) order, one per user
  // ---------------------------------------------------------------------------------------

  datatype Member = Member(score: int, user: UserId)

  predicate Precedes(a: Member, b: Member) {
    a.score < b.score || (a.score == b.score && a.user < b.user)
  }

  ghost predicate IsSortedSet(z: seq<Member>) {
    (forall i, j | 0 <= i < j < |z| :: Precedes(z[i], z[j])) &&
    (forall i, j | 0 <= i < j < |z| :: z[i].user != z[j].user)
  }

  function Users(z: seq<Member>): set<UserId> { set m | m in z :: m.user }

  /** ZREM. */
  function Without(z: seq<Member>, gone: set<UserId>): seq<Member> {
    if z == [] then [] else (if z[0].user in gone then [] else [z[0]]) + Without(z[1..], gone)
  }

  function Insert(z: seq<Member>, m: Member): seq<Member> {
    if z == [] || Precedes(m, z[0]) then [m] + z else [z[0]] + Insert(z[1..], m)
  }

  /** ZADD: a user already in the set is moved to the new score. */
  function ZAdd(z: seq<Member>, user: UserId, score: int): seq<Member> {
    Insert(Without(z, {user}), Member(score, user))
  }

  /** ZRANGE 0 249. */
  function Scanned(z: seq<Member>): seq<Member> { if |z| <= SCAN_LIMIT then z else z[..SCAN_LIMIT] }

  /** A scan reads the 250 that have waited longest, or all if there are no more. */
  lemma OldestAreScanned(z: seq<Member>)
    requires IsSortedSet(z)
    ensures Scanned(z) <= z && |Scanned(z)| == if |z| <= 250 then |z| else 250
    ensures forall m, n | m in Scanned(z) && n in z && n !in Scanned(z) ::
      m.score < n.score || (m.score == n.score && m.user < n.user)
  {
    forall m, n | m in Scanned(z) && n in z && n !in Scanned(z)
      ensures m.score < n.score || (m.score == n.score && m.user < n.user)
    {
      var i :| 0 <= i < |Scanned(z)| && z[i] == m;
      var j :| 0 <= j < |z| && z[j] == n;
      assert Scanned(z) == z[..|Scanned(z)|] && z[j] !in z[..|Scanned(z)|];
      assert i < j;
      assert Precedes(z[i], z[j]);
    }
  }

  lemma {:induction false} WithoutMembers(z: seq<Member>, gone: set<UserId>)
    ensures forall m :: m in Without(z, gone) <==> m in z && m.user !in gone
  {
    if z != [] {
      WithoutMembers(z[1..], gone);
    }
  }

  lemma {:induction false} InsertMembers(z: seq<Member>, m: Member)
    ensures forall n :: n in Insert(z, m) <==> n in z || n == m
  {
    if z != [] && !Precedes(m, z[0]) {
      InsertMembers(z[1..], m);
      assert forall n :: n in z <==> n == z[0] || n in z[1..];
    }
  }

  /** A sorted set is a first member that precedes, and differs in user from, a sorted set. */
  lemma ConsSorted(m: Member, z: seq<Member>)
    requires IsSortedSet(z) && forall n | n in z :: Precedes(m, n) && m.user != n.user
    ensures IsSortedSet([m] + z)
  {
  }

  lemma TailSorted(z: seq<Member>)
    requires IsSortedSet(z) && z != []
    ensures IsSortedSet(z[1..]) && forall n | n in z[1..] :: Precedes(z[0], n) && z[0].user != n.user
  {
  }

  lemma {:induction false} WithoutSorted(z: seq<Member>, gone: set<UserId>)
    requires IsSortedSet(z)
    ensures IsSortedSet(Without(z, gone))
  {
    if z != [] {
      TailSorted(z);
      WithoutSorted(z[1..], gone);
      WithoutMembers(z[1..], gone);
      ConsSorted(z[0], Without(z[1..], gone));
    }
  }

  lemma {:induction false} InsertSorted(z: seq<Member>, m: Member)
    requires IsSortedSet(z) && forall n | n in z :: n.user != m.user
    ensures IsSortedSet(Insert(z, m))
  {
    if z == [] || Precedes(m, z[0]) {
      if z != [] { TailSorted(z); }
      ConsSorted(m, z);
    } else {
      TailSorted(z);
      InsertSorted(z[1..], m);
      InsertMembers(z[1..], m);
      assert z[0] in z;
      ConsSorted(z[0], Insert(z[1..], m));
    }
  }

  lemma ZAddIsSortedUpdate(z: seq<Member>, user: UserId, score: int)
    requires IsSortedSet(z)
    ensures IsSortedSet(ZAdd(z, user, score))
    ensures forall m :: m in ZAdd(z, user, score) <==> m == Member(score, user) || (m in z && m.user != user)
  {
    WithoutMembers(z, {user});
    WithoutSorted(z, {user});
    InsertMembers(Without(z, {user}), Member(score, user));
    InsertSorted(Without(z, {user}), Member(score, user));
  }

  // ---------------------------------------------------------------------------------------
  // The index
  // ---------------------------------------------------------------------------------------

  datatype Index = Index(entries: map<UserId, Candidate>, shards: map<Shard, seq<Member>>)

  function At(ix: Index, shard: Shard): seq<Member> {
    if shard in ix.shards then ix.shards[shard] else []
  }

  function AddTo(ix: Index, shard: Shard, c: Candidate): Index {
    ix.(shards := ix.shards[shard := ZAdd(At(ix, shard), c.userId, c.queuedAt)])
  }

  function RemoveFrom(ix: Index, shard: Shard, gone: set<UserId>): Index {
    if shard in ix.shards then ix.(shards := ix.shards[shard := Without(ix.shards[shard], gone)]) else ix
  }

  function IndexUnder(ix: Index, own: Shard, c: Candidate): Index {
    if own == Global then AddTo(ix, own, c) else AddTo(AddTo(ix, own, c), Global, c)
  }

  function UnindexFrom(ix: Index, own: Shard, user: UserId): Index {
    RemoveFrom(RemoveFrom(ix, own, {user}), Global, {user})
  }

  /** The snapshot, the regional index and the global index, in one MULTI. */
  function JoinIndex(ix: Index, c: Candidate): Index {
    IndexUnder(ix.(entries := ix.entries[c.userId := c]), ShardFor(c.country), c)
  }

  /** The caller names the country, which need not be the one the user joined with. */
  function LeaveIndex(ix: Index, user: UserId, country: Option<string>): Index {
    UnindexFrom(ix.(entries := ix.entries - {user}), ShardFor(country), user)
  }

  function ExpireEntry(ix: Index, user: UserId): Index { ix.(entries := ix.entries - {user}) }

  /** The ids one scan reads. */
  function Window(ix: Index, shards: set<Shard>, exclude: UserId): set<UserId> {
    (set s, m | s in shards && m in Scanned(At(ix, s)) :: m.user) - {exclude}
  }

  function Stale(ix: Index, shards: set<Shard>, exclude: UserId): set<UserId> {
    Window(ix, shards, exclude) - ix.entries.Keys
  }

  function CleanedShards(shards: map<Shard, seq<Member>>, scanned: set<Shard>, gone: set<UserId>):
    map<Shard, seq<Member>>
  {
    map s | s in shards :: if s in scanned then Without(shards[s], gone) else shards[s]
  }

  /** The index after a scan has removed what it found stale from the shards it looked at. */
  function ScanIndex(ix: Index, shards: set<Shard>, exclude: UserId): Index {
    ix.(shards := CleanedShards(ix.shards, shards, Stale(ix, shards, exclude)))
  }

  /** `pool` lists exactly the live snapshots among the scanned ids. */
  ghost predicate IsPoolOf(pool: seq<Candidate>, ix: Index, shards: set<Shard>, exclude: UserId) {
    forall c :: c in pool <==> exists u :: u in Window(ix, shards, exclude) && u in ix.entries && c == ix.entries[u]
  }

  /** `pool` lists exactly the live snapshots of everybody but the seeker. */
  ghost predicate IsEverybody(pool: seq<Candidate>, ix: Index, exclude: UserId) {
    forall c :: c in pool <==> exists u :: u in ix.entries && u != exclude && c == ix.entries[u]
  }

  // ---------------------------------------------------------------------------------------
  // What every sequence of joins, leaves, expiries and scans keeps
  // ---------------------------------------------------------------------------------------

  datatype Event =
    | Join(candidate: Candidate)
    | Leave(user: UserId, country: Option<string>)
    | Expire(user: UserId)
    | Scan(shards: set<Shard>, exclude: UserId)

  function Next(ix: Index, e: Event): Index {
    match e
    case Join(c) => JoinIndex(ix, c)
    case Leave(u, country) => LeaveIndex(ix, u, country)
    case Expire(u) => ExpireEntry(ix, u)
    case Scan(shards, exclude) => ScanIndex(ix, shards, exclude)
  }

  function Execute(ix: Index, events: seq<Event>): Index {
    if events == [] then ix else Next(Execute(ix, events[..|events| - 1]), events[|events| - 1])
  }

  const EMPTY: Index := Index(map[], map[])

  ghost predicate Sorted(ix: Index) { forall s | s in ix.shards :: IsSortedSet(ix.shards[s]) }

  /** A waiter's snapshot is its own, and indexed by its join time in its shard and globally. */
  ghost predicate IsIndexed(ix: Index, u: UserId)
    requires u in ix.entries
  {
    var c := ix.entries[u];
    c.userId == u && Member(c.queuedAt, u) in At(ix, Global) && Member(c.queuedAt, u) in At(ix, ShardFor(c.country))
  }

  ghost predicate IndexOk(ix: Index) {
    Sorted(ix) && forall u | u in ix.entries :: IsIndexed(ix, u)
  }

  lemma AddToKeeps(ix: Index, shard: Shard, c: Candidate)
    requires Sorted(ix)
    ensures Sorted(AddTo(ix, shard, c)) && Member(c.queuedAt, c.userId) in At(AddTo(ix, shard, c), shard)
    ensures forall s, m: Member | m.user != c.userId || s != shard ::
      m in At(AddTo(ix, shard, c), s) <==> m in At(ix, s)
  {
    assert IsSortedSet(At(ix, shard));
    ZAddIsSortedUpdate(At(ix, shard), c.userId, c.queuedAt);
  }

  lemma RemoveFromKeeps(ix: Index, shard: Shard, gone: set<UserId>)
    requires Sorted(ix)
    ensures Sorted(RemoveFrom(ix, shard, gone))
    ensures forall s, m: Member | m.user !in gone :: m in At(RemoveFrom(ix, shard, gone), s) <==> m in At(ix, s)
  {
    assert IsSortedSet(At(ix, shard));
    WithoutMembers(At(ix, shard), gone);
    WithoutSorted(At(ix, shard), gone);
  }

  lemma IndexUnderKeeps(ix: Index, own: Shard, c: Candidate)
    requires Sorted(ix)
    ensures Sorted(IndexUnder(ix, own, c)) && IndexUnder(ix, own, c).entries == ix.entries
    ensures Member(c.queuedAt, c.userId) in At(IndexUnder(ix, own, c), own)
    ensures Member(c.queuedAt, c.userId) in At(IndexUnder(ix, own, c), Global)
    ensures forall s, m: Member | m.user != c.userId :: m in At(IndexUnder(ix, own, c), s) <==> m in At(ix, s)
  {
    AddToKeeps(ix, own, c);
    if own != Global {
      AddToKeeps(AddTo(ix, own, c), Global, c);
    }
  }

  lemma UnindexFromKeeps(ix: Index, own: Shard, user: UserId)
    requires Sorted(ix)
    ensures Sorted(UnindexFrom(ix, own, user)) && UnindexFrom(ix, own, user).entries == ix.entries
    ensures forall s, m: Member | m.user != user :: m in At(UnindexFrom(ix, own, user), s) <==> m in At(ix, s)
  {
    RemoveFromKeeps(ix, own, {user});
    RemoveFromKeeps(RemoveFrom(ix, own, {user}), Global, {user});
  }

  /** Whoever was indexed still is, when only the snapshot and index of `user` change. */
  lemma OthersStayIndexed(ix: Index, ix': Index, user: UserId)
    requires IndexOk(ix) && Sorted(ix')
    requires forall u | u in ix'.entries && u != user :: u in ix.entries && ix'.entries[u] == ix.entries[u]
    requires forall s, m: Member | m.user != user :: m in At(ix', s) <==> m in At(ix, s)
    requires user in ix'.entries ==> IsIndexed(ix', user)
    ensures IndexOk(ix')
  {
    forall u | u in ix'.entries ensures IsIndexed(ix', u) {
      if u != user {
        assert IsIndexed(ix, u);
      }
    }
  }

  lemma JoinKeeps(ix: Index, c: Candidate)
    requires IndexOk(ix)
    ensures IndexOk(JoinIndex(ix, c))
  {
    var snapshot := ix.(entries := ix.entries[c.userId := c]);
    assert forall s :: At(snapshot, s) == At(ix, s);
    IndexUnderKeeps(snapshot, ShardFor(c.country), c);
    OthersStayIndexed(ix, IndexUnder(snapshot, ShardFor(c.country), c), c.userId);
  }

  lemma LeaveKeeps(ix: Index, user: UserId, country: Option<string>)
    requires IndexOk(ix)
    ensures IndexOk(LeaveIndex(ix, user, country))
  {
    var gone := ix.(entries := ix.entries - {user});
    assert forall s :: At(gone, s) == At(ix, s);
    UnindexFromKeeps(gone, ShardFor(country), user);
    OthersStayIndexed(ix, UnindexFrom(gone, ShardFor(country), user), user);
  }

  lemma ScanKeeps(ix: Index, shards: set<Shard>, exclude: UserId)
    requires IndexOk(ix)
    ensures IndexOk(ScanIndex(ix, shards, exclude))
  {
    var stale, ix' := Stale(ix, shards, exclude), ScanIndex(ix, shards, exclude);
    forall s | s in ix.shards ensures IsSortedSet(ix'.shards[s]) {
      WithoutSorted(ix.shards[s], stale);
    }
    forall u | u in ix'.entries ensures IsIndexed(ix', u) {
      assert IsIndexed(ix, u);
      WithoutMembers(At(ix, Global), stale);
      WithoutMembers(At(ix, ShardFor(ix.entries[u].country)), stale);
    }
  }

  /** Every live waiter stays indexed in its own shard and in the global shard. */
  lemma {:induction false} LiveWaitersStayIndexed(events: seq<Event>)
    ensures IndexOk(Execute(EMPTY, events))
  {
    if events != [] {
      var front, last := events[..|events| - 1], events[|events| - 1];
      LiveWaitersStayIndexed(front);
      var ix := Execute(EMPTY, front);
      match last
      case Join(c) => JoinKeeps(ix, c);
      case Leave(u, country) => LeaveKeeps(ix, u, country);
      case Expire(u) =>
        forall v | v in ExpireEntry(ix, u).entries ensures IsIndexed(ExpireEntry(ix, u), v) {
          assert IsIndexed(ix, v);
        }
      case Scan(shards, exclude) => ScanKeeps(ix, shards, exclude);
    }
  }

  /** The snapshot of the user's last join, unless the user has left or the entry has expired since. */
  function LastJoin(events: seq<Event>, user: UserId): Option<Candidate> {
    if events == [] then None
    else
      match events[|events| - 1]
      case Join(c) => if c.userId == user then Some(c) else LastJoin(events[..|events| - 1], user)
      case Leave(u, _) => if u == user then None else LastJoin(events[..|events| - 1], user)
      case Expire(u) => if u == user then None else LastJoin(events[..|events| - 1], user)
      case Scan(_, _) => LastJoin(events[..|events| - 1], user)
  }

  /** What is read back is what was last written: no other user's calls and no scan interfere. */
  lemma {:induction false} SnapshotIsLastJoin(events: seq<Event>, user: UserId)
    ensures user in Execute(EMPTY, events).entries <==> LastJoin(events, user).Some?
    ensures LastJoin(events, user).Some? ==> Execute(EMPTY, events).entries[user] == LastJoin(events, user).value
  {
    if events != [] {
      SnapshotIsLastJoin(events[..|events| - 1], user);
    }
  }
}
