# Verification of the matchmaking, token and limiter cores

A Dafny model of the stateful cores of the video-chat platform, with proofs of what they promise.
`dafny verify dfyconfig.toml` checks all of it.

**Pairing** (`Pairing`, `PairingSafety`, `PairingLocks`, `PairingNode`, `SharedQueue`, `Matchmaker`). Any number of realtime nodes
run `tryMatch` and `teardownMatch` against one Redis. `Pairing` is the transition system: every Redis
command is one atomic event, key expiry is an event of its own, and a theorem about "every sequence
of events" is a theorem about every interleaving. `PairingNode.SharedStore` is the same protocol as
sequential code; its methods record each command as an event, with arbitrary other events before it,
so the theorems about `Pairing.Execute` hold of the store after every method. `Matchmaker` puts the search
in front of it, and in `SharedQueue` the queue index follows the same events, so that protocol and index
never differ about who is waiting.

**Selection** (`Matchmaking`, `SelectionProperties`) and **the queue index** (`QueueIndex`,
`QueueSearch`, `QueueRepository`). The rules, the score, the relaxation ladder and the selection loop;
the sharded, size-limited, lazily cleaned index; and the agreement of the two with an exhaustive search.

**Tokens** (`Ledger`, `LedgerProperties`, `Deliveries`, `TokensService`) and **campaigns** (`Campaigns`,
`CampaignBudget`, `CampaignResults`, `CampaignCap`, `CampaignsService`). Cached balances beside an append-only ledger;
and the reserve / grant / release protocol, whose statements interleave, fail and crash.

**Limiters** (`RateLimits`, `Lockout`). The fixed window in its two forms, and the login lockout.

## Conventions

- User ids, match ids, lock tokens, purchases and campaigns are natural numbers; only equality and,
  for users, order matter. A UUID drawn afresh is one nobody has drawn before.
- An event that is not enabled leaves the state as it was. A crashed `tryMatch` run is one that is
  never scheduled again; a crashed campaign claim has an event of its own, because it loses a slot.
- `Promise.all` commands are issued in the order in which the code lists them. Other nodes may act
  between any two of them.
- In the pairing protocol a run may select any partner other than itself: what `FindPartner` proves
  about its choice is all the protocol relies on, and `Matchmaker.TryMatch` composes the two.
- Times are milliseconds. Scores are counted in units of 1/2000 point, which makes 1.5 points per
  second exactly 3 units per millisecond, so no rounding occurs.
- One database statement or one `$transaction` is one step. A transaction that throws changes nothing.
- Histories such as "which run drew this match id" (`makers`) and "the highest cap this campaign has
  had" (`ceiling`) are part of the state so that theorems can speak of them; no step depends on them.

## Where code and documentation differ

- `schema.prisma:756-757` says the ledger always sums to the tokens bought. It sums to the tokens in
  circulation, and to the tokens bought if and only if promotional grants and adjustments cancel
  (`LedgerProperties.LedgerSumsToBoughtIff`); one adjustment is enough for them not to
  (`LedgerProperties.AdjustedLedgerIsNotBought`).
- `campaigns.service.ts:155-162` says the cap is a budget that is not exceeded. A claim compares the
  counter with the cap it read before, so a cap lowered in between is passed
  (`CampaignCap.LoweredCapIsNotSeen`, seven steps from nothing). An edited cap holds from then on if and
  only if no more than that is issued and, unless the campaign has ended, no claim that can still reserve
  has read a higher limit (`CampaignCap.EditedCapHoldsIffSafe`).
- `admin.schema.ts:146-157` demands strictly increasing stage times and says nothing about what each
  stage drops. Waiting keeps every legal pair exactly on the ladders whose drop sets are nested
  (`SelectionProperties.LegalityGrowsIffNested`); the default ladder is one, and
  `SelectionProperties.AcceptedLadderLosesPairs` names an accepted one that is not.
- `tokens.service.ts:278-284` calls fulfilment idempotent on the event id. The outcome of a set of
  deliveries is independent of order and repetition if and only if no purchase can be crowded out, which
  means that creditable deliveries among them, for distinct other purchases, could take every event id it
  might be credited under (`Deliveries.OrderIsIrrelevantIffUncrowded`). Two deliveries can be swapped unless
  they are for different purchases, would both be credited and share an event id
  (`Deliveries.SwapIsHarmlessIffNoContest`); two orders paid under one id show the difference
  (`Deliveries.SharedEventsDoNotCommute`).
- `matchmaking.ts:363-369` describes widening to the global shard once the country constraint is gone;
  the code scans the global shard at every stage, and widens to all regions
  (`QueueSearch.PartnersShardIsScanned` says exactly whose shards are scanned when).
- `server.ts:212-215` lets the first call of a window through without comparing it with the limit, so
  every limit below one acts as one (`RateLimits.LimitsBelowOneActAsOne`), and a limit of zero still
  admits a call (`RateLimits.ZeroLimitAdmitsACall`).

## Model

| member | source | states |
|---|---|---|
| `PairingSafety.AllOrNothing` | apps/realtime/src/matchmaker.ts:113-124 | In every interleaving in which no key expires while it holds this match (locks and all other keys may), a match id that is not mid-claim or mid-teardown is held by exactly its two distinct users or by nobody: by both if and only if its run succeeded and no teardown has released it. |
| `PairingSafety.OnlyTheChosenTwo` | apps/realtime/src/queue.repository.ts:174-192 | With every kind of expiry, at every moment, an id nobody drew is held by nobody and any other only by the seeker and partner of the run that drew it. |
| `PairingSafety.SettledHolders` | apps/realtime/src/matchmaker.ts:116-124 | The state form of all-or-nothing: the invariants alone determine the exact holders of a settled match. |
| `PairingSafety.TornDownTogether` | apps/realtime/src/matchmaker.ts:216-216 | Teardowns that are not between their two releases have released both users of a match or neither. |
| `PairingSafety.OccupancyDeletedByOwner` | apps/realtime/src/queue.repository.ts:185-192 | An occupancy key never changes from one id to another; it goes only by its own expiry, a rollback of the run that drew that id, or a teardown of that very match. |
| `PairingSafety.OccupancyNeverOverlaps` | apps/realtime/src/queue.repository.ts:168-183 | Two different matches of one user are separated by a moment at which the user holds none, in every run with every kind of expiry. |
| `PairingSafety.MatchesNeverReturn` | apps/realtime/src/matchmaker.ts:201-216 | Once a user has lost a match, no later event of any kind makes them hold it again, so duplicate and late teardowns are harmless. |
| `PairingSafety.LockDeletedByOwner` | apps/realtime/src/queue.repository.ts:28-41 | A lock never changes hands directly, and goes only by expiry or by the run whose token it holds. |
| `PairingSafety.InvAlways` | apps/realtime/src/matchmaker.ts:92-168 | The five safety invariants - runs, unique ids, occupancy justified by a claim, registry naming completed matches, releases that stick - survive every sequence of events. |
| `PairingSafety.PersistentAlways` | apps/realtime/src/queue.repository.ts:185-192 | As long as no key expires while it holds the match, a claim of the match that was made is still in the store or was released by a teardown of that match. |
| `PairingSafety.ExpirySplitsMatch` | apps/realtime/src/queue.repository.ts:174-183 | If a key does expire while it holds a complete match, exactly the other user is left holding it. |
| `PairingSafety.MidClaimHolders` | apps/realtime/src/matchmaker.ts:115-123 | In the middle of its claims a match is held by its seeker alone. |
| `PairingSafety.HalfTornDownHolders` | apps/realtime/src/matchmaker.ts:216-216 | Between the two releases of a teardown, even one that stops there for good, a match is held by its partner alone, or by nobody if another teardown has released the partner. |
| `PairingSafety.MatchesAreForever` | apps/realtime/src/server.ts:253-253 | Who is in a completed match never changes, so what the registry once said stays true. |
| `PairingLocks.MutualExclusion` | apps/realtime/src/queue.repository.ts:255-292 | As long as a lock that a run relies on expires only if that run has crashed (never moves again), two runs that share a user and have not lost a lock are never both between acquiring their locks and releasing them; and the same with the section ending at the second claim, after which locks may expire freely. |
| `PairingLocks.ClaimsNeverFail` | apps/realtime/src/matchmaker.ts:99-124 | If locks expire only under crashed runs until their second claim, and under anybody after it, both NX claims of a run that has not crashed succeed once re-verification has passed, and no run at all ever reaches the rollback. |
| `PairingLocks.NobodyLosesWithoutExpiry` | apps/realtime/src/queue.repository.ts:262-271 | Without lock expiry both conditions hold and no run has lost a lock, so both results cover every run. |
| `PairingLocks.SomeAttemptSucceeds` | apps/realtime/src/queue.repository.ts:244-284 | Ascending lock order gives collective progress, whether or not locks expire: from free locks, if an attempt is made and none is left waiting for its second try-lock, some attempt acquired both. |
| `PairingLocks.NoLockIsLeftBehind` | apps/realtime/src/queue.repository.ts:273-291 | In every run with every kind of expiry, a key that holds a run's token is one of its two locks and the run is between taking and handing back that lock; so a run that failed to lock, is about to announce or is over holds none. |
| `PairingLocks.GreatestIsPendingStep` | apps/realtime/src/queue.repository.ts:260-284 | Until an attempt acquires both locks, the greatest locked id belongs to an attempt that has its second lock still to try. |
| `PairingLocks.UndisturbedRunReachesClaims` | apps/realtime/src/matchmaker.ts:92-113 | A run with free locks and two waiting, free users reaches its claims, and with exactly which state. |
| `PairingLocks.UndisturbedRunPairs` | apps/realtime/src/matchmaker.ts:92-168 | By its own steps alone such a run ends in exactly this state: both users hold its id, both are out of the queue, the registry names them, and no lock is left behind. |
| `PairingLocks.OneExpirySplitsAMatch` | apps/realtime/src/queue.repository.ts:174-183 | A complete schedule from an empty store after which one of two paired users holds the match alone, because the other key expired. |
| `PairingLocks.RollbackAfterOneLockExpiry` | apps/realtime/src/matchmaker.ts:118-124 | One lock expiring under a live run is enough for it to need its rollback: a schedule in which two runs verify the same user as free and only NX keeps that user in one match. |
| `PairingNode.SharedStore.SetLock` | apps/realtime/src/queue.repository.ts:262-271 | SET NX: succeeds if and only if the key was free, and never overwrites. |
| `PairingNode.SharedStore.ReleaseLock` | apps/realtime/src/queue.repository.ts:273-275 | Compare-and-delete of a lock. |
| `PairingNode.SharedStore.ClaimForMatch` | apps/realtime/src/queue.repository.ts:174-183 | SET NX of an occupancy key. |
| `PairingNode.SharedStore.ReleaseMatch` | apps/realtime/src/queue.repository.ts:190-192 | Compare-and-delete of an occupancy key. |
| `PairingNode.SharedStore.IsQueued` | apps/realtime/src/queue.repository.ts:84-86 | One EXISTS command of the run, after whatever the other nodes do, answered by the queue as it then is. |
| `PairingNode.SharedStore.CurrentMatch` | apps/realtime/src/queue.repository.ts:164-166 | One GET of the occupancy key: the match id that it holds, or none. |
| `PairingNode.SharedStore.AcquirePairLocks` | apps/realtime/src/queue.repository.ts:255-292 | Two try-locks in ascending order; a run that does not acquire both is over, and no key holds its token. |
| `PairingNode.SharedStore.ReleasePairLocks` | apps/realtime/src/matchmaker.ts:165-167 | The `finally`: both locks are released by token, after which no key holds it, and only then does a successful run go on to announce. |
| `PairingNode.SharedStore.CheckBothQueued` | apps/realtime/src/matchmaker.ts:101-104 | The verdict is true if and only if each of the two lookups, at its own moment since the check began, found its user queued. |
| `PairingNode.SharedStore.CheckBothFree` | apps/realtime/src/matchmaker.ts:104-111 | The run goes on if and only if both users were found queued and each of the two lookups of a match, at its own moment since, found none. |
| `PairingNode.SharedStore.ClaimPartnerOrUndo` | apps/realtime/src/matchmaker.ts:118-131 | The second claim either succeeds and each of the users was out of the queue at some moment since, or the seeker no longer holds the id. |
| `PairingNode.SharedStore.TryMatch` | apps/realtime/src/matchmaker.ts:61-168 | In any environment: a match is reported exactly if the run's two claims succeeded, with the id it drew, and then the run has taken both users out of the queue; with or without a match no lock holds the run's token afterwards; a run that reports none leaves no occupancy key holding an id of its own; the store stays reachable by protocol events. |
| `PairingNode.SharedStore.SaveMatch` | apps/realtime/src/queue.repository.ts:206-215 | The registry learns the seeker and partner of the run. |
| `PairingNode.SharedStore.AttemptMatch` | apps/realtime/src/server.ts:302-315 | A match that is found and announced is a completed match of exactly these two users. |
| `PairingNode.SharedStore.GetMatchParticipants` | apps/realtime/src/queue.repository.ts:217-222 | The pair the registry names for the match, or none, and that the teardown goes on exactly in the first case. |
| `PairingNode.SharedStore.ReleaseParticipant` | apps/realtime/src/matchmaker.ts:216-216 | After its release the user does not hold the match. |
| `PairingNode.SharedStore.DeleteMatch` | apps/realtime/src/queue.repository.ts:236-238 | The registry entry is gone. |
| `PairingNode.SharedStore.TeardownMatch` | apps/realtime/src/server.ts:324-343 | In any environment: afterwards nobody holds a registered match, and the peer named is the actor's partner in it, or nobody for an outsider. |
| `PairingNode.PeerOf` | apps/realtime/src/server.ts:332-333 | Somebody is named exactly for an actor in the match, and actor and peer together are its two users. |
| `Matchmaker.Matchmaker.TryMatch` | apps/realtime/src/matchmaker.ts:61-168 | Search and protocol together, in any environment: a reported match pairs the seeker with somebody else who was waiting, the two legal for each other and on neither's block list in the snapshots the search read, and each of them left the queue in a step of this run, at which moment no snapshot and no index entry of theirs was left; a seeker who is not queued or already matched starts no run; a run without a match leaves no key with an id of its own. Protocol and index agree on who is queued before and after. |
| `SharedQueue.FollowAllKeepsLinked` | apps/realtime/src/queue.repository.ts:53-86 | Whatever joins, leaves, expiries, searches and pairings happen, EXISTS in the protocol and the snapshots of the index agree on who is queued, and every waiter stays indexed. |
| `SharedQueue.LeavingIsThorough` | apps/realtime/src/queue.repository.ts:74-82 | Leaving removes the snapshot and every trace in the global shard and in the shard of the country named. |
| `PairingNode.OthersLeaveRunAlone` | apps/realtime/src/matchmaker.ts:45-49 | Whatever other nodes do, they do not move this run's program counter. |
| `Matchmaking.RelaxationStageFor` | packages/shared/src/matchmaking.ts:77-89 | The forward scan finds the last stage whose time has come. |
| `SelectionProperties.StageHasBegun` | packages/shared/src/matchmaking.ts:77-89 | The stage a candidate is at has begun, its seconds having passed since the candidate was queued (or it is the first), and no later one has. |
| `Matchmaking.LastReached` | packages/shared/src/matchmaking.ts:77-89 | The stage found has been reached (or is the first) and no later one has. |
| `Matchmaking.SelectBestMatch` | packages/shared/src/matchmaking.ts:318-353 | The loop returns nobody if nobody in the pool is legal. Otherwise it returns a legal member who is not the seeker, on neither block list and not occupied, with its score, shared interests and stages; every other legal member scores less, or the same with a shorter wait, or the same and waits as long under a greater id. |
| `SelectionProperties.LegalMeans` | packages/shared/src/matchmaking.ts:119-185 | A pair is legal if and only if they are two people, neither has blocked the other, neither is occupied, and each has, field by field, what the other still insists on. |
| `SelectionProperties.ScoreTerms` | packages/shared/src/matchmaking.ts:201-289 | Every term of a score with its weight and cap, from the counts of matching list positions, the two countries, the longer wait, the candidate's priority and either side's recent partners. |
| `SelectionProperties.SharedCountsMatching` | packages/shared/src/matchmaking.ts:230-230 | The shared list has exactly the members that occur in both, once for each position of the first list. |
| `SelectionProperties.DefaultLadderEnforces` | packages/shared/src/matchmaking.ts:56-70 | Under the default ladder interests are enforced for 5 seconds, age and language for 15, the country for 30 and the gender for 60, and no longer. |
| `SelectionProperties.ChoiceIsStrictMaximum` | packages/shared/src/matchmaking.ts:311-361 | Somebody is chosen if and only if somebody legal is in the pool; the choice outranks every other legal member by (score, earlier arrival, smaller id), and is never the seeker. |
| `SelectionProperties.SamePoolSameChoice` | packages/shared/src/matchmaking.ts:311-317 | Two nodes that see the same candidates in any order and repetition choose the same one. |
| `SelectionProperties.OutranksIsStrictTotalOrder` | packages/shared/src/matchmaking.ts:355-361 | The tie-break order is irreflexive, transitive and total on different ids. |
| `SelectionProperties.RecentPartnersLose` | packages/shared/src/matchmaking.ts:214-224 | A recent partner is chosen only if every legal member of the pool is one. |
| `SelectionProperties.ScoreBounds` | packages/shared/src/matchmaking.ts:201-289 | Scores lie in 0..159 points without the recent-partner penalty, and at most -341 with it. |
| `SelectionProperties.LegalityIsSymmetric` | packages/shared/src/matchmaking.ts:119-185 | The same hard rule fires, and the pair is legal, whoever seeks. |
| `SelectionProperties.WantedSeekersFindSomeone` | packages/shared/src/matchmaking.ts:318-353 | If a's search could accept b, then b's search over any pool with a in it finds someone, and no one worse than a. |
| `SelectionProperties.SharedCountsIntersection` | packages/shared/src/matchmaking.ts:230-240 | Filtering a duplicate-free list by another counts the intersection of the two. |
| `SelectionProperties.ScoresDifferByPriority` | packages/shared/src/matchmaking.ts:225-289 | With duplicate-free lists the scores of a pair in the two directions differ only in the priority term. |
| `SelectionProperties.StageNeverDecreases` | packages/shared/src/matchmaking.ts:77-89 | On every ladder, waiting never takes a candidate back to an earlier stage. |
| `SelectionProperties.LegalPairsStayLegal` | packages/shared/src/matchmaking.ts:77-185 | On a ladder with nested drop sets a pair once legal stays legal. |
| `SelectionProperties.LegalityGrowsIffNested` | packages/shared/src/matchmaking.ts:92-99 | For strictly increasing ladders: every pair once legal stays legal if and only if the drop sets, interests aside, are nested. |
| `SelectionProperties.ReturningConstraintBreaksPair` | packages/validation/src/admin.schema.ts:146-157 | On any accepted ladder that enforces a dropped constraint again, a concrete pair is legal at one stage and not at the later one. |
| `SelectionProperties.AcceptedLadderLosesPairs` | packages/validation/src/admin.schema.ts:146-157 | A ladder of two stages that the settings form accepts, on which a legal pair stops being legal. |
| `SelectionProperties.DefaultLadderIsNested` | packages/shared/src/matchmaking.ts:56-70 | The default ladder is nested and increasing, so waiting never loses anyone a partner on it. |
| `SelectionProperties.AfterAMinuteOnlyHardRules` | packages/shared/src/matchmaking.ts:65-69 | Under the default ladder, a pair that has waited 60 seconds on both sides is legal exactly if no hard rule fires. |
| `QueueIndex.LiveWaitersStayIndexed` | apps/realtime/src/queue.repository.ts:53-82 | After any sequence of joins, leaves (under any country), expiries and scans, every live entry is in the global shard and in its own, under its join time, and every shard is a sorted set. |
| `QueueIndex.ZAddIsSortedUpdate` | apps/realtime/src/queue.repository.ts:63-68 | Adding a user moves them to the new score, keeps everybody else, and keeps the order. |
| `QueueIndex.OldestAreScanned` | apps/realtime/src/queue.repository.ts:110-112 | A scan of a shard reads the 250 members with the earliest join times, ties by id, or all if there are no more. |
| `QueueIndex.PortugalShard` | packages/shared/src/matchmaking.ts:372-382 | PT, in either case, is in the European shard. |
| `QueueIndex.TurkeyShard` | packages/shared/src/matchmaking.ts:372-382 | TR, in mixed case too, is in the European shard. |
| `QueueIndex.MexicoShard` | packages/shared/src/matchmaking.ts:372-383 | MX is in the North American shard. |
| `QueueIndex.BrazilShard` | packages/shared/src/matchmaking.ts:372-385 | BR is in the South American shard. |
| `QueueIndex.JapanShard` | packages/shared/src/matchmaking.ts:372-387 | JP is in the Asian shard. |
| `QueueIndex.SouthAfricaShard` | packages/shared/src/matchmaking.ts:372-389 | ZA is in the African shard. |
| `QueueIndex.FijiShard` | packages/shared/src/matchmaking.ts:372-390 | FJ is in the shard of Oceania. |
| `QueueIndex.NoShard` | packages/shared/src/matchmaking.ts:372-375 | No country, an empty one and one outside the table are in the global shard only. |
| `QueueIndex.JoinKeeps` | apps/realtime/src/queue.repository.ts:53-72 | Joining, also again and from another region, keeps every live entry indexed. |
| `QueueIndex.LeaveKeeps` | apps/realtime/src/queue.repository.ts:74-82 | Leaving under a country other than the one joined with unindexes nobody else. |
| `QueueIndex.ScanKeeps` | apps/realtime/src/queue.repository.ts:137-143 | Lazy cleanup never removes a live entry. |
| `QueueIndex.SnapshotIsLastJoin` | apps/realtime/src/queue.repository.ts:53-98 | What is read back for a user is the snapshot of their last join, unless they have left or it has expired since; no other user's calls and no scan interfere. |
| `QueueSearch.ShardedSearchIsExhaustive` | apps/realtime/src/queue.repository.ts:107-146 | With at most 250 members in the global shard, the search over the shards a seeker scans gives exactly the result of searching all live entries but the seeker. |
| `QueueSearch.PoolIsSound` | apps/realtime/src/queue.repository.ts:114-135 | At any size, a scan offers only live entries, each once under its own id, never the seeker. |
| `QueueSearch.PartnersShardIsScanned` | packages/shared/src/matchmaking.ts:393-416 | A legal partner's shard is scanned if and only if it is the global or the seeker's own one, the seeker named countries, or the country constraint is gone. |
| `QueueSearch.WaiterIsReached` | apps/realtime/src/queue.repository.ts:100-143 | With fewer than 250 ids that are never cleaned up, and k stale ones, ahead of a live entry in a scanned shard, one of the first k + 1 scans reaches it. |
| `QueueSearch.MissedScanCleansUp` | apps/realtime/src/queue.repository.ts:137-143 | A scan that misses such an entry strictly lowers the number of stale ids ahead of it. |
| `QueueSearch.AheadIsOlder` | apps/realtime/src/queue.repository.ts:100-106 | Exactly the longer-waiting members are ahead of a waiter. |
| `QueueRepository.CollectShards` | packages/shared/src/matchmaking.ts:399-416 | The collecting loop yields exactly the shards to scan. |
| `QueueRepository.Repository.Join` | apps/realtime/src/queue.repository.ts:53-72 | The whole new index, and that every live entry is still indexed. |
| `QueueRepository.Repository.Leave` | apps/realtime/src/queue.repository.ts:74-82 | The whole new index, and that every live entry is still indexed. |
| `QueueRepository.Repository.CollectIds` | apps/realtime/src/queue.repository.ts:108-115 | The distinct ids in the scanned part of the shards, without the excluded one. |
| `QueueRepository.Repository.ReadSnapshots` | apps/realtime/src/queue.repository.ts:119-135 | Candidates are exactly the live snapshots of the ids, stale exactly the ids without one. |
| `QueueRepository.Repository.LoadCandidates` | apps/realtime/src/queue.repository.ts:107-146 | Exactly the live snapshots among the scanned ids; what was stale leaves the scanned shards and nothing else changes. |
| `QueueRepository.Repository.FindPartner` | apps/realtime/src/matchmaker.ts:61-87 | Nobody for a user not queued or already matched; otherwise the best among the scanned waiters, legal for the seeker and never the seeker, and the best of all waiters whenever the global shard fits one scan. |
| `LedgerProperties.LedgerReplay` | packages/database/prisma/schema.prisma:728-768 | After any sequence of tips, fulfilments, adjustments, reads, orders and grants, every balance is the sum of its user's ledger deltas and never negative, both lifetime counters are the sums of the rows they count, and every row carries its user's running total. |
| `LedgerProperties.TokensAreConserved` | packages/database/src/tokens.service.ts:129-198 | After any such sequence all balances together are the tokens bought, granted and net adjusted, and all tip rows add up to nothing. |
| `LedgerProperties.TipConserves` | packages/database/src/tokens.service.ts:135-202 | A tip leaves the total of all balances unchanged. |
| `LedgerProperties.ApplyReplays` | packages/database/src/tokens.service.ts:66-395 | Each single operation keeps the books replayable. |
| `LedgerProperties.ApplyConserves` | packages/database/src/tokens.service.ts:66-395 | Each single operation keeps the total accounted for by kind, with tips at zero. |
| `LedgerProperties.TotalWithout` | packages/database/prisma/schema.prisma:734-741 | A total over a table does not depend on the order of summation. |
| `LedgerProperties.LedgerSumsToBoughtIff` | packages/database/prisma/schema.prisma:754-757 | The whole ledger sums to the tokens in circulation, and to the tokens bought if and only if promotional and adjustment rows cancel. |
| `LedgerProperties.AdjustedLedgerIsNotBought` | packages/database/src/tokens.service.ts:366-395 | One adjustment of five tokens: the ledger sums to five and nothing was bought. |
| `Deliveries.PurchasesAreCreditedOnce` | packages/database/src/tokens.service.ts:278-323 | After any sequence of operations a completed purchase has exactly one ledger row, a PURCHASE of its tokens for its user, and any other purchase has none. |
| `Deliveries.BalancesArePaidFor` | packages/database/src/tokens.service.ts:285-323 | The PURCHASE rows are worth exactly the tokens of the completed purchases, so all balances together are the tokens paid for, granted and net adjusted. |
| `Deliveries.EventsAreClaimedAlways` | packages/database/src/tokens.service.ts:300-305 | After any sequence of operations event ids sit on completed purchases only. |
| `Deliveries.DeliveriesCommute` | packages/database/src/tokens.service.ts:278-331 | Two delivery histories in which no purchase can be crowded out, and which hold creditable deliveries for the same purchases, leave the same balances, counters and statuses, whatever their orders, repetitions and event ids. |
| `Deliveries.OrderIsIrrelevantIffUncrowded` | packages/database/src/tokens.service.ts:278-331 | All orders and repetitions of the same deliveries have the same outcome if and only if no purchase can be crowded out by distinct others taking every event id it might be credited under. |
| `Deliveries.SwapIsHarmlessIffNoContest` | packages/database/src/tokens.service.ts:300-330 | Swapping two deliveries changes nothing if and only if they do not both qualify for different purchases under one event id. |
| `Deliveries.OwnEventsAreUncrowded` | packages/database/src/tokens.service.ts:278-284 | If no two purchases have creditable deliveries under one event id, nobody can be crowded out. |
| `Deliveries.DeliveriesLead` | packages/database/src/tokens.service.ts:285-331 | Where any series of deliveries leads: each purchase is as it was or completed under one of its own events, which no other carries; an uncredited one found its event taken; and the accounts follow. |
| `Deliveries.SharedEventsDoNotCommute` | packages/database/src/tokens.service.ts:324-330 | Two ordered purchases and one event id delivered for both: the two orders leave different balances. |
| `TokensService.Service.GetBalance` | packages/database/src/tokens.service.ts:66-73 | The account, created on first access, whose balance is its ledger total. |
| `TokensService.Service.Debit` | packages/database/src/tokens.service.ts:76-99 | Takes exactly the tokens if and only if the account exists and holds at least as many, and otherwise changes nothing. |
| `TokensService.Service.Credit` | packages/database/src/tokens.service.ts:101-123 | Balance and both counters after the upsert, whether or not the account existed. |
| `TokensService.Service.SendTip` | packages/database/src/tokens.service.ts:135-202 | Refused for funds if and only if the sender has no account or less than the tip; each other refusal with its exact condition; no refusal changes anything. A tip that is sent moves exactly the tokens from sender to recipient, touches nobody else, counts as earned for the recipient, and is recorded with its sender, recipient and two stamped rows; the books stay replayable. |
| `TokensService.Service.FulfilPurchase` | packages/database/src/tokens.service.ts:285-331 | Fulfils if and only if the purchase is known and not completed and no other carries the event id; then its user alone gains exactly its tokens, counted as purchased, with one stamped row, and the purchase carries the event; the books stay replayable. |
| `TokensService.Service.CreatePurchase` | packages/database/src/tokens.service.ts:260-276 | Which refusal, or a pending purchase of the tokens the package holds, under a reference not used before. |
| `TokensService.Service.Adjust` | packages/database/src/tokens.service.ts:366-395 | Refused as invalid if and only if the amount is zero or the note has nothing but white space, and for funds if and only if more is taken than the account holds; otherwise exactly this user's balance changes, by exactly the amount, and neither lifetime counter. |
| `Ledger.AsciiSpaces` | packages/database/src/tokens.service.ts:373-375 | Which ASCII characters trimming removes from a note. |
| `CampaignResults.SlotsAreAccountedFor` | packages/database/src/campaigns.service.ts:155-261 | In every interleaving with failures and crashes, the counter is the grants ever made plus the claims in flight plus the slots lost, and stays within the highest cap the campaign has had. |
| `CampaignCap.CapIsNeverExceeded` | packages/database/src/campaigns.service.ts:178-200 | Grants and counter stay within the cap in force in every run in which each edit of it, when made, lifted or raised it or set a safe one. |
| `CampaignCap.BudgetIsNeverExceeded` | packages/database/src/campaigns.service.ts:155-162 | In such runs the PROMO tokens of a campaign are at most its amount times the cap in force. |
| `CampaignCap.EditedCapHoldsIffSafe` | packages/database/src/campaigns.service.ts:327-367 | After an edit the counter stays within the new cap until the next edit, whatever happens, if and only if at the edit no more was issued and, unless the campaign has ended, no claim that can still reserve has read a higher limit. |
| `CampaignCap.UnsafeCapCanBePassed` | packages/database/src/campaigns.service.ts:185-198 | From any state in which the cap is not safe, a continuation without an edit that passes it. |
| `CampaignResults.MintedPerGrant` | packages/database/src/campaigns.service.ts:203-233 | The PROMO tokens of a campaign are its amount times its grants. |
| `CampaignResults.NobodyIsPaidTwice` | packages/database/src/campaigns.service.ts:203-244 | The ledger holds exactly one row of a campaign for each user granted it, and none for anyone else. |
| `CampaignResults.ReleaseFloorIsDead` | packages/database/src/campaigns.service.ts:251-261 | A claim that hands its slot back always finds it counted, so the floor at zero never takes effect. |
| `CampaignResults.BooksStayRight` | packages/database/src/campaigns.service.ts:203-233 | Replay and conservation hold throughout interleaved claims, tips, purchases and adjustments. |
| `CampaignResults.EndedCampaignsOnlyComplete` | packages/database/src/campaigns.service.ts:369-391 | ENDED is final, and after it only claims that already held a slot are still granted. |
| `CampaignCap.LoweredCapIsNotSeen` | packages/database/src/campaigns.service.ts:189-195 | Seven steps from nothing: a cap of one is lowered to zero under a claim that has read it, and the claim takes its slot. |
| `CampaignBudget.InvAlways` | packages/database/src/campaigns.service.ts:163-261 | The slot accounting and the terms each claim carries survive every sequence of events. |
| `CampaignBudget.ReleasingMeansIssued` | packages/database/src/campaigns.service.ts:252-256 | The state form of the dead floor. |
| `CampaignsService.Service.ReserveSlot` | packages/database/src/campaigns.service.ts:185-200 | A slot is taken, and the counter rises by one, exactly if the campaign as the statement finds it is active and below the limit the claim has read; otherwise nothing changes and the claim is over. |
| `CampaignsService.Service.GrantTransaction` | packages/database/src/campaigns.service.ts:202-248 | The exact new state: a grant that is absent when the transaction runs is made unless it throws, and pays the amount as balance and earnings with one PROMO row; otherwise nothing changes and a slot is left to hand back. |
| `CampaignsService.Service.ReleaseSlot` | packages/database/src/campaigns.service.ts:252-261 | The counter falls by one, or the slot is lost if the update itself fails. |
| `CampaignsService.Service.Claim` | packages/database/src/campaigns.service.ts:163-249 | In any environment: tokens are reported exactly when this claim's own run made the grant, which did not exist when it began; it throws only if one of its statements did; no grant is ever taken back. Undisturbed and without failures it grants if and only if the campaign is active with room and the user has no grant, and with exactly which new tables. |
| `CampaignsService.Service.ApplyEligible` | packages/database/src/campaigns.service.ts:96-153 | Every campaign reported was granted by a claim of this call, once, and some listing of it is active, not before its start, not after its end, below its cap, its user verified where required and, where it is for new users, created no earlier than its start or, without one, than the campaign; undisturbed and without failures every such listing of an active campaign with room that the user has not been granted is reported; unknown and deleted users, and failing reads, change nothing. |
| `RateLimits.FloodGuard.Allow` | apps/realtime/src/server.ts:203-218 | Without a window, or with one that has ended, the call is admitted and starts a new one; otherwise the window keeps its end, counts one more, and admits up to the limit. No other event's window changes. |
| `RateLimits.EndedWindowsAreReplaced` | apps/realtime/src/server.ts:212-217 | Over any series of calls, every call at or after the end of the window in progress is admitted under any limit and starts a new window; every other one is counted in it. |
| `RateLimits.NobodyIsShutOut` | apps/realtime/src/server.ts:209-217 | Every call of a guard comes less than one window after a call that was admitted, itself or an earlier one, whatever the limit. |
| `RateLimits.RedisCounter.Count` | apps/api/src/redis.ts:94-99 | INCR and EXPIRE NX: a new key counts one and expires one window later, an existing one counts one more and keeps its expiry; no key is without one. |
| `RateLimits.RedisCounter.Consume` | apps/api/src/redis.ts:88-132 | Allowed and remaining by the window rule; allowed without a limit when Redis does not answer, whether or not it counted. |
| `RateLimits.WindowBound` | apps/api/src/redis.ts:76-87 | Over any calls at non-decreasing times, every interval of length T > 0 admits at most limit * (ceil(T / window) + 1) - 1 calls, however late an ended window is replaced. |
| `RateLimits.AtMostTwiceTheLimit` | apps/api/src/redis.ts:83-86 | Less than twice the limit, or twice one, in any stretch as long as the window. |
| `RateLimits.LimitsBelowOneActAsOne` | apps/realtime/src/server.ts:212-217 | Over any calls and in any interval, a limit below one admits exactly as many calls as a limit of one. |
| `RateLimits.ZeroLimitAdmitsACall` | apps/realtime/src/server.ts:212-217 | Of two calls at once under a limit of zero, one is admitted. |
| `RateLimits.TwiceTheLimitIsReached` | apps/api/src/redis.ts:83-86 | For every limit and window, calls of which 2 * limit - 1 are admitted within one stretch of window length, which meets the bound. |
| `RateLimits.GuardCallsArePlausible` | apps/realtime/src/server.ts:209-217 | The flood guard on a clock that does not run backwards is one of the limiters the bound is about. |
| `RateLimits.CeilDivRoundsUp` | apps/api/src/redis.ts:83-86 | The number of windows in the bound is the length divided by the window, rounded up. |
| `Lockout.Account.Attempt` | apps/api/src/services/auth.service.ts:199-240 | A locked account is not tried and told how long to wait, rounded up to seconds; a success clears the lock unless the account is restricted; a failure counts. |
| `Lockout.Account.RecordFailedLogin` | apps/api/src/services/auth.service.ts:257-272 | The new count and lock. |
| `Lockout.AdmittedIffSpaced` | apps/api/src/services/auth.service.ts:199-272 | A schedule of failures is admitted if and only if each one waits out the lock set by the one before. |
| `Lockout.LockoutSpacing` | apps/api/src/services/auth.service.ts:250-272 | The n-th of n >= 10 consecutive admitted failures comes at least 930 + 900 * (n - 10) seconds after the fifth. |
| `Lockout.SpacingIsTight` | apps/api/src/services/auth.service.ts:261-266 | For every such n a schedule of admitted failures takes exactly that long. |
| `Lockout.LocksAreBounded` | apps/api/src/services/auth.service.ts:251-256 | No lock exceeds 900 seconds, and from the fifth failure on there is one of at least 30. |
| `Lockout.FirstLocks` | apps/api/src/services/auth.service.ts:259-266 | The fifth to the ninth failure lock for 30, 60, 120, 240 and 480 seconds. |

## Left out

- PairingSafety.AllOrNothing: needs the match's own keys not to expire while they hold it; `ExpirySplitsMatch` says what happens otherwise. A run that stops for good between its claims, or a teardown between its releases, leaves its match unsettled; `MidClaimHolders` and `HalfTornDownHolders` say who holds it then.
- PairingNode.SharedStore.TryMatch: takes the selected partner as an argument (`Matchmaker.Matchmaker.TryMatch` is the whole), and does not model the match row in Postgres, the recording of recent partners or an exception from Redis in the middle of a run.
- PairingNode.SharedStore.TeardownMatch: does not model the match row, its duration or the notification of the peer.
- PairingNode.SharedStore.AttemptMatch: of the announcement only the registry write is modelled.
- Matchmaker.Matchmaker.TryMatch: other nodes act from the first lock on, not during the search, whose result the protocol does not rely on; the index takes in the events of a run after the run, in their order, since the protocol reads nothing of it but who is queued; a join of a user who is queued already replaces the snapshot.
- Corrupt JSON in an entry, which the code deletes and reports as absent.
- QueueRepository.Repository.LoadCandidates: one atomic step; a join between its read and its cleanup is not modelled. Candidates come as a set of snapshots, since their order does not affect the choice.
- QueueRepository.Repository.FindPartner: whether the seeker is already matched, and the recent partners, are arguments.
- TokensService.Service.SendTip: no match, message or time offer on the tip, and no counterparty on the rows.
- TokensService.Service.CreatePurchase: the price and its currency are not modelled; a package holds a non-negative number of tokens, and packages do not change.
- TokensService.Service.Adjust: the note must not be blank but is not stored.
- RateLimits.RedisCounter.Consume: the retry-after seconds are not modelled, nor a command that answers with an error.
- Lockout.Account.Attempt: whether the account is restricted is an argument; the unknown account, rehashing, the session and the audit entry are not modelled; logins are serialised.
- CampaignsService.Service.Claim: a transaction that throws is taken to have rolled back; names and notes are not modelled, and a campaign's amount is a natural number that does not change.
- CampaignsService.Service.ApplyEligible: the listing of campaigns, with dates and audiences, is an argument.
- CampaignResults.EndedCampaignsOnlyComplete: a status change is one step, while the code reads the status and then writes it.
- Socket.IO, HTTP routes, Zod, Prisma, Stripe, mail, TURN, Argon2, the web pages and media: I/O and foreign libraries.
- Moderator eviction, which deletes an occupancy key unconditionally.
- That a user is never both queued and matched, that Next requeues, and that every occupied pair is registered: the code does not keep these.
- Edits of a campaign's amount, audience and dates; creation and edits of caps and status are single steps.
- Postgres isolation anomalies, and the width of its integer columns, whose overflow aborts the transaction.
- Fractional token amounts, which the services refuse.
- `respondToOffer`, `listPackages`, `history`, `stats`, `list`, `size`, `position`, `resolvePeer` as a guard, presence, block cache, skip cooldown: easy reads or single writes.
- REFUND rows and REFUNDED purchases: declared in the schema, written by nothing.
- Suspension and ban expiry, the session state table, privacy projection, country and formatting helpers.
- Upper-casing of country codes beyond ASCII.
