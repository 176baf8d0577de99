/**
 What the selection policy guarantees: one answer per pool, nobody chosen over a better partner,
 recent partners last, symmetry, and legality that only grows with waiting - exactly for the
 ladders whose drop sets are nested.
 */
module SelectionProperties {
  import opened Common
  import opened Matchmaking

  // ---------------------------------------------------------------------------------------
  // The order on candidates, and the one best answer
  // ---------------------------------------------------------------------------------------

  ghost predicate DistinctIds(pool: seq<Candidate>) {
    forall c, d | c in pool && d in pool && c.userId == d.userId :: c == d
  }

  /** Outranking is a strict total order on candidates with different ids. */
  lemma OutranksIsStrictTotalOrder(seeker: Candidate, now: int, a: Candidate, b: Candidate, c: Candidate)
    ensures !Outranks(seeker, now, a, a)
    ensures Outranks(seeker, now, a, b) && Outranks(seeker, now, b, c) ==> Outranks(seeker, now, a, c)
    ensures a.userId != b.userId ==> (Outranks(seeker, now, a, b) <==> !Outranks(seeker, now, b, a))
  {
  }

  /**
   One answer: two nodes that see the same candidates, in whatever order and repetition, make the
   same choice, with the same score and stages.
  */
  lemma SamePoolSameChoice(seeker: Candidate, pool: seq<Candidate>, pool': seq<Candidate>, now: int,
                           stages: Ladder, occupied: set<UserId>, r: Option<Selection>, r': Option<Selection>)
    requires forall c :: c in pool <==> c in pool'
    requires DistinctIds(pool)
    requires IsBest(seeker, pool, now, stages, occupied, r) && IsBest(seeker, pool', now, stages, occupied, r')
    ensures r == r'
  {
    if r.Some? && r'.Some? {
      OutranksIsStrictTotalOrder(seeker, now, r.value.candidate, r'.value.candidate, r.value.candidate);
    }
  }

  /** Selection finds someone exactly if someone legal is there, and outranks every other legal member. */
  lemma ChoiceIsStrictMaximum(seeker: Candidate, pool: seq<Candidate>, now: int, stages: Ladder,
                              occupied: set<UserId>, r: Option<Selection>)
    requires DistinctIds(pool) && IsBest(seeker, pool, now, stages, occupied, r)
    ensures r.Some? <==> exists c :: c in pool && Legal(seeker, c, now, stages, occupied)
    ensures r.Some? ==> forall c | c in pool && Legal(seeker, c, now, stages, occupied) && c != r.value.candidate ::
              Outranks(seeker, now, r.value.candidate, c)
    ensures r.Some? ==> r.value.candidate.userId != seeker.userId
  {
    if r.Some? {
      var best := r.value.candidate;
      assert best in pool && Legal(seeker, best, now, stages, occupied);
      forall c | c in pool && Legal(seeker, c, now, stages, occupied) && c != best
        ensures Outranks(seeker, now, best, c)
      {
        OutranksIsStrictTotalOrder(seeker, now, best, c, best);
      }
    }
  }

  // ---------------------------------------------------------------------------------------
  // What legality means, field by field
  // ---------------------------------------------------------------------------------------

  /** A stage that does not drop the constraint is in force; without any stages everything is enforced. */
  predicate IsEnforced(c: Constraint, a: Candidate, now: int, stages: Ladder) {
    stages == [] || c !in stages[StageOf(a, now, stages)].drop
  }

  /** Everything `a` still insists on is true of `b`. */
  predicate MeetsWishes(a: Candidate, b: Candidate, now: int, stages: Ladder) {
    (IsEnforced(GenderChoice, a, now, stages) ==>
       (a.preferredGender == WantsMale ==> b.gender == Some(Male)) &&
       (a.preferredGender == WantsFemale ==> b.gender == Some(Female))) &&
    (IsEnforced(Country, a, now, stages) && |a.preferredCountries| > 0 ==>
       exists i :: 0 <= i < |a.preferredCountries| && b.country == Some(a.preferredCountries[i]) &&
                   a.preferredCountries[i] != "") &&
    (IsEnforced(Language, a, now, stages) && |a.preferredLanguages| > 0 ==>
       exists i, j :: 0 <= i < |a.preferredLanguages| && 0 <= j < |b.languages| &&
                      a.preferredLanguages[i] == b.languages[j]) &&
    (IsEnforced(AgeBracket, a, now, stages) && |a.preferredAgeBrackets| > 0 ==>
       exists i :: 0 <= i < |a.preferredAgeBrackets| && b.ageBracket == Some(a.preferredAgeBrackets[i]) &&
                   a.preferredAgeBrackets[i] != "")
  }

  lemma EnforcedIsActive(c: Constraint, a: Candidate, now: int, stages: Ladder)
    ensures IsEnforced(c, a, now, stages) <==> c in ActiveFor(a, now, stages)
  {
    assert c in {Interests, AgeBracket, Language, Country, GenderChoice};
    assert stages != [] ==> StageOf(a, now, stages) < |stages|;
  }

  lemma OverlapAt(a: seq<string>, b: seq<string>)
    ensures (exists l :: l in b && l in a) <==>
            exists i, j :: 0 <= i < |a| && 0 <= j < |b| && a[i] == b[j]
  {
    if l :| l in b && l in a {
      var i :| 0 <= i < |a| && a[i] == l;
      var j :| 0 <= j < |b| && b[j] == l;
      assert a[i] == b[j];
    }
    if i, j :| 0 <= i < |a| && 0 <= j < |b| && a[i] == b[j] {
      assert b[j] in b && b[j] in a;
    }
  }

  lemma ListedAt(list: seq<string>, value: Option<string>)
    ensures Accepts(list, value) <==>
            |list| > 0 ==> exists i :: 0 <= i < |list| && value == Some(list[i]) && list[i] != ""
  {
    if value.Some? && value.value in list {
      var i :| 0 <= i < |list| && list[i] == value.value;
      assert value == Some(list[i]);
    }
  }

  lemma WishesAreMet(a: Candidate, b: Candidate, now: int, stages: Ladder)
    ensures SatisfiesPreferences(a, b, ActiveFor(a, now, stages)) <==> MeetsWishes(a, b, now, stages)
  {
    forall c ensures IsEnforced(c, a, now, stages) <==> c in ActiveFor(a, now, stages) {
      EnforcedIsActive(c, a, now, stages);
    }
    ListedAt(a.preferredCountries, b.country);
    ListedAt(a.preferredAgeBrackets, b.ageBracket);
    OverlapAt(a.preferredLanguages, b.languages);
  }

  /**
   A pair is legal if and only if they are two people, neither has blocked the other, neither is
   occupied, and each meets every wish that the other still insists on.
  */
  lemma LegalMeans(a: Candidate, b: Candidate, now: int, stages: Ladder, occupied: set<UserId>)
    ensures Legal(a, b, now, stages, occupied) <==>
      a.userId != b.userId &&
      b.userId !in a.excludedUserIds && a.userId !in b.excludedUserIds &&
      a.userId !in occupied && b.userId !in occupied &&
      MeetsWishes(a, b, now, stages) && MeetsWishes(b, a, now, stages)
  {
    WishesAreMet(a, b, now, stages);
    WishesAreMet(b, a, now, stages);
  }

  // ---------------------------------------------------------------------------------------
  // What a score is made of
  // ---------------------------------------------------------------------------------------

  /** The positions of `a` whose member occurs in `b`. */
  function Matching(a: seq<string>, b: seq<string>): set<nat> { set i: nat | i < |a| && a[i] in b }

  lemma {:induction false} SharedCountsMatching(a: seq<string>, b: seq<string>)
    ensures |Shared(a, b)| == |Matching(a, b)|
    ensures forall x :: x in Shared(a, b) <==> x in a && x in b
  {
    if a == [] {
      assert Matching(a, b) == {};
    } else {
      SharedCountsMatching(a[1..], b);
      ShiftKeepsSize(a, b);
      assert forall x :: x in a <==> x == a[0] || x in a[1..];
    }
  }

  function Shifted(ids: set<nat>): set<nat> { set i | i in ids :: i + 1 }

  lemma ShiftedHas(ids: set<nat>, k: nat)
    ensures k in Shifted(ids) <==> k > 0 && k - 1 in ids
  {
    if k > 0 && k - 1 in ids {
      var i := k - 1;
      assert i in ids && k == i + 1;
    }
  }

  lemma {:induction false} ShiftedSize(ids: set<nat>)
    ensures |Shifted(ids)| == |ids|
  {
    if ids != {} {
      var i :| i in ids;
      ShiftedSize(ids - {i});
      forall k ensures k in Shifted(ids) <==> k in Shifted(ids - {i}) + {i + 1} {
        ShiftedHas(ids, k);
        ShiftedHas(ids - {i}, k);
      }
      ShiftedHas(ids - {i}, i + 1);
      assert Shifted(ids) == Shifted(ids - {i}) + {i + 1} && i + 1 !in Shifted(ids - {i});
    }
  }

  lemma ShiftKeepsSize(a: seq<string>, b: seq<string>)
    requires a != []
    ensures |Matching(a, b)| == |Matching(a[1..], b)| + (if a[0] in b then 1 else 0)
  {
    var rest := Shifted(Matching(a[1..], b));
    ShiftedSize(Matching(a[1..], b));
    forall i: nat ensures i in Matching(a, b) <==> (i == 0 && a[0] in b) || i in rest {
      ShiftedHas(Matching(a[1..], b), i);
    }
    ShiftedHas(Matching(a[1..], b), 0);
    assert Matching(a, b) == rest + (if a[0] in b then {0} else {});
  }

  /**
   The terms of a score, in points: 12 for each shared interest up to 48, 8 for each shared language
   up to 16, 15 if each lives where the other wants and 7 if only one does, 1.5 for each second the
   longer waiter has waited up to 60, 10 for each priority level of the candidate, and 500 off for a
   partner that either of the two has had recently.
  */
  lemma ScoreTerms(a: Candidate, b: Candidate, now: int)
    ensures var s, interests, languages :=
        ScorePair(a, b, now), |Matching(a.interestIds, b.interestIds)|, |Matching(a.languages, b.languages)|;
      s.sharedInterests == 2000 * (if interests >= 4 then 48 else 12 * interests) &&
      s.sharedLanguages == 2000 * (if languages >= 2 then 16 else 8 * languages)
    ensures var s := ScorePair(a, b, now);
      var aWants := exists i :: 0 <= i < |a.preferredCountries| && b.country == Some(a.preferredCountries[i]);
      var bWants := exists i :: 0 <= i < |b.preferredCountries| && a.country == Some(b.preferredCountries[i]);
      s.countryPreference == (if aWants && bWants then 30_000 else if aWants || bWants then 14_000 else 0)
    ensures var s := ScorePair(a, b, now);
      var waitedMs := now - (if a.queuedAt <= b.queuedAt then a.queuedAt else b.queuedAt);
      s.waitTime == (if waitedMs >= 40_000 then 120_000 else 3 * waitedMs)
    ensures ScorePair(a, b, now).priority == 20_000 * b.priority
    ensures ScorePair(a, b, now).recentPartnerPenalty ==
            if b.userId in a.recentPartnerIds || a.userId in b.recentPartnerIds then -1_000_000 else 0
    ensures var s := ScorePair(a, b, now);
      s.Total() == s.sharedInterests + s.sharedLanguages + s.countryPreference + s.waitTime + s.priority +
                   s.recentPartnerPenalty
  {
    SharedCountsMatching(a.interestIds, b.interestIds);
    SharedCountsMatching(a.languages, b.languages);
    WantedAt(a, b);
    WantedAt(b, a);
  }

  lemma WantedAt(a: Candidate, b: Candidate)
    ensures WantsCountryOf(a, b) <==>
            exists i :: 0 <= i < |a.preferredCountries| && b.country == Some(a.preferredCountries[i])
  {
    if WantsCountryOf(a, b) {
      var i :| 0 <= i < |a.preferredCountries| && a.preferredCountries[i] == b.country.value;
      assert b.country == Some(a.preferredCountries[i]);
    }
  }

  // ---------------------------------------------------------------------------------------
  // Recent partners
  // ---------------------------------------------------------------------------------------

  lemma ScoreBounds(seeker: Candidate, candidate: Candidate, now: int)
    requires now >= seeker.queuedAt && 0 <= candidate.priority <= 2
    ensures var total := ScorePair(seeker, candidate, now).Total();
      if RecentPartners(seeker, candidate) then total <= (159 - 500) * UNIT else 0 <= total <= 159 * UNIT
  {
  }

  /** A recent partner is chosen only if every legal member of the pool is one. */
  lemma RecentPartnersLose(seeker: Candidate, pool: seq<Candidate>, now: int, stages: Ladder,
                           occupied: set<UserId>, r: Option<Selection>, other: Candidate)
    requires IsBest(seeker, pool, now, stages, occupied, r)
    requires now >= seeker.queuedAt && forall c | c in pool :: 0 <= c.priority <= 2
    requires other in pool && Legal(seeker, other, now, stages, occupied) && !RecentPartners(seeker, other)
    ensures r.Some? && !RecentPartners(seeker, r.value.candidate)
  {
    ScoreBounds(seeker, other, now);
    if r.Some? {
      ScoreBounds(seeker, r.value.candidate, now);
    }
  }

  // ---------------------------------------------------------------------------------------
  // Symmetry
  // ---------------------------------------------------------------------------------------

  /** Who seeks does not matter for legality: the same rules fire either way round. */
  lemma LegalityIsSymmetric(a: Candidate, b: Candidate, now: int, stages: Ladder, occupied: set<UserId>)
    ensures CheckHardRules(a, b, occupied) == CheckHardRules(b, a, occupied)
    ensures Legal(a, b, now, stages, occupied) <==> Legal(b, a, now, stages, occupied)
  {
  }

  /** If a's search could accept b, then b's search over any pool containing a finds someone. */
  lemma WantedSeekersFindSomeone(a: Candidate, b: Candidate, pool: seq<Candidate>, now: int, stages: Ladder,
                                 occupied: set<UserId>, r: Option<Selection>)
    requires Legal(a, b, now, stages, occupied) && a in pool && IsBest(b, pool, now, stages, occupied, r)
    ensures r.Some? && !Outranks(b, now, a, r.value.candidate)
  {
    LegalityIsSymmetric(a, b, now, stages, occupied);
  }

  predicate NoDuplicates(s: seq<string>) { forall i, j | 0 <= i < j < |s| :: s[i] != s[j] }

  function Elements(s: seq<string>): set<string> { set x | x in s }

  lemma IntersectionGrows(rest: set<string>, x: string, other: set<string>)
    requires x !in rest
    ensures |(rest + {x}) * other| == |rest * other| + (if x in other then 1 else 0)
  {
    if x in other {
      assert (rest + {x}) * other == rest * other + {x};
    } else {
      assert (rest + {x}) * other == rest * other;
    }
  }

  /** Filtering a duplicate-free list counts the intersection of the two lists. */
  lemma {:induction false} SharedCountsIntersection(a: seq<string>, b: seq<string>)
    requires NoDuplicates(a)
    ensures |Shared(a, b)| == |Elements(a) * Elements(b)|
  {
    if a == [] {
      assert Elements(a) * Elements(b) == {};
    } else {
      SharedCountsIntersection(a[1..], b);
      assert a[0] !in a[1..];
      assert Elements(a) == Elements(a[1..]) + {a[0]};
      IntersectionGrows(Elements(a[1..]), a[0], Elements(b));
    }
  }

  lemma SharedIsSymmetric(a: seq<string>, b: seq<string>)
    requires NoDuplicates(a) && NoDuplicates(b)
    ensures |Shared(a, b)| == |Shared(b, a)|
  {
    SharedCountsIntersection(a, b);
    SharedCountsIntersection(b, a);
    assert Elements(a) * Elements(b) == Elements(b) * Elements(a);
  }

  /** With duplicate-free lists the two directions of a score differ only by the priority term. */
  lemma ScoresDifferByPriority(a: Candidate, b: Candidate, now: int)
    requires NoDuplicates(a.interestIds) && NoDuplicates(b.interestIds)
    requires NoDuplicates(a.languages) && NoDuplicates(b.languages)
    ensures ScorePair(a, b, now) == ScorePair(b, a, now).(priority := b.priority * 10 * UNIT)
  {
    SharedIsSymmetric(a.interestIds, b.interestIds);
    SharedIsSymmetric(a.languages, b.languages);
  }

  // ---------------------------------------------------------------------------------------
  // Waiting
  // ---------------------------------------------------------------------------------------

  /** The stage a candidate is at has begun, or is the first, and no later one has. */
  lemma StageHasBegun(c: Candidate, now: int, stages: Ladder)
    ensures var index := StageOf(c, now, stages);
      (index == 0 || (index < |stages| &&
        (stages[index].afterSeconds == 0 || now - c.queuedAt >= 1000 * stages[index].afterSeconds))) &&
      forall j | index < j < |stages| ::
        stages[j].afterSeconds > 0 && now - c.queuedAt < 1000 * stages[j].afterSeconds
  {
    var index, waited := StageOf(c, now, stages), Waited(c.queuedAt, now);
    forall j | index < j < |stages|
      ensures stages[j].afterSeconds > 0 && now - c.queuedAt < 1000 * stages[j].afterSeconds
    {
      assert !Reached(stages[j], waited);
    }
  }

  /** On every ladder the stage never goes back. */
  lemma StageNeverDecreases(c: Candidate, now: int, later: int, stages: Ladder)
    requires now <= later
    ensures StageOf(c, now, stages) <= StageOf(c, later, stages)
  {
  }

  /** Constraints that can filter and are dropped at some stage stay dropped at later ones. */
  ghost predicate Nested(stages: Ladder) {
    forall i, j | 0 <= i < j < |stages| :: stages[i].drop - {Interests} <= stages[j].drop
  }

  /** What the settings form enforces. */
  ghost predicate StrictlyIncreasing(stages: Ladder) {
    forall i, j | 0 <= i < j < |stages| :: stages[i].afterSeconds < stages[j].afterSeconds
  }

  /** A pair once legal is legal at every later time, all else being equal. */
  ghost predicate KeepsLegalPairs(stages: Ladder) {
    forall a, b, now, later, occupied | now <= later && Legal(a, b, now, stages, occupied) ::
      Legal(a, b, later, stages, occupied)
  }

  lemma ActiveShrinks(c: Candidate, now: int, later: int, stages: Ladder)
    requires Nested(stages) && now <= later
    ensures ActiveFor(c, later, stages) - {Interests} <= ActiveFor(c, now, stages)
  {
    StageNeverDecreases(c, now, later, stages);
  }

  lemma FewerConstraintsAcceptMore(a: Candidate, b: Candidate, active: set<Constraint>, fewer: set<Constraint>)
    requires fewer - {Interests} <= active && SatisfiesPreferences(a, b, active)
    ensures SatisfiesPreferences(a, b, fewer)
  {
    assert forall c | c in fewer && c != Interests :: c in fewer - {Interests};
  }

  lemma LegalPairsStayLegal(a: Candidate, b: Candidate, now: int, later: int, stages: Ladder, occupied: set<UserId>)
    requires Nested(stages) && now <= later && Legal(a, b, now, stages, occupied)
    ensures Legal(a, b, later, stages, occupied)
  {
    ActiveShrinks(a, now, later, stages);
    ActiveShrinks(b, now, later, stages);
    FewerConstraintsAcceptMore(a, b, ActiveFor(a, now, stages), ActiveFor(a, later, stages));
    FewerConstraintsAcceptMore(b, a, ActiveFor(b, now, stages), ActiveFor(b, later, stages));
  }

  /** Someone with no wishes and nothing to offer. */
  function Plain(id: UserId): Candidate {
    Candidate(id, 0, None, None, [], None, [], WantsAny, [], [], [], [], [], 0)
  }

  /** Someone who insists on exactly one thing that `Plain` does not have. */
  function Picky(c: Constraint): Candidate {
    match c
    case GenderChoice => Plain(1).(preferredGender := WantsMale)
    case Country => Plain(1).(preferredCountries := ["PT"])
    case Language => Plain(1).(preferredLanguages := ["pt"])
    case AgeBracket => Plain(1).(preferredAgeBrackets := ["18-24"])
    case Interests => Plain(1)
  }

  lemma PickyInsists(c: Constraint, active: set<Constraint>)
    requires c != Interests
    ensures SatisfiesPreferences(Picky(c), Plain(2), active) <==> c !in active
    ensures SatisfiesPreferences(Plain(2), Picky(c), active)
  {
  }

  /** On an increasing ladder a waiter is at stage `i` (or 0) just when that stage begins. */
  lemma StageAtItsStart(stages: Ladder, i: nat, c: Candidate)
    requires StrictlyIncreasing(stages) && i < |stages| && c.queuedAt == 0
    ensures StageOf(c, 1000 * stages[i].afterSeconds, stages) == i
  {
    var waited := Waited(0, 1000 * stages[i].afterSeconds);
    assert Reached(stages[i], waited);
    assert forall j | i < j < |stages| :: !Reached(stages[j], waited);
  }

  lemma LegalWithPicky(c: Constraint, now: int, stages: Ladder)
    requires c != Interests
    ensures Legal(Picky(c), Plain(2), now, stages, {}) <==> c !in ActiveFor(Picky(c), now, stages)
  {
    PickyInsists(c, ActiveFor(Picky(c), now, stages));
    PickyInsists(c, ActiveFor(Plain(2), now, stages));
  }

  /** A constraint dropped at stage `i` and enforced again at `j` takes a legal pair away. */
  lemma ReturningConstraintBreaksPair(stages: Ladder, i: nat, j: nat, c: Constraint)
    requires StrictlyIncreasing(stages) && i < j < |stages|
    requires c in stages[i].drop && c !in stages[j].drop && c != Interests
    ensures Legal(Picky(c), Plain(2), 1000 * stages[i].afterSeconds, stages, {})
    ensures !Legal(Picky(c), Plain(2), 1000 * stages[j].afterSeconds, stages, {})
  {
    LegalWithPicky(c, 1000 * stages[i].afterSeconds, stages);
    LegalWithPicky(c, 1000 * stages[j].afterSeconds, stages);
    StageAtItsStart(stages, i, Picky(c));
    StageAtItsStart(stages, j, Picky(c));
  }

  /** The settings form accepts this ladder: the country constraint is off for five seconds, then on. */
  lemma AcceptedLadderLosesPairs()
    ensures StrictlyIncreasing([Stage(0, {Country}), Stage(5, {})])
    ensures !KeepsLegalPairs([Stage(0, {Country}), Stage(5, {})])
  {
    ReturningConstraintBreaksPair([Stage(0, {Country}), Stage(5, {})], 0, 1, Country);
  }

  /**
   Waiting never loses anyone a partner exactly on the nested ladders. The settings form accepts
   ladders that are not nested, so the property is not automatic.
  */
  lemma LegalityGrowsIffNested(stages: Ladder)
    requires StrictlyIncreasing(stages)
    ensures KeepsLegalPairs(stages) <==> Nested(stages)
  {
    if Nested(stages) {
      forall a, b, now, later, occupied | now <= later && Legal(a, b, now, stages, occupied)
        ensures Legal(a, b, later, stages, occupied)
      {
        LegalPairsStayLegal(a, b, now, later, stages, occupied);
      }
    } else {
      var i, j :| 0 <= i < j < |stages| && !(stages[i].drop - {Interests} <= stages[j].drop);
      var c :| c in stages[i].drop - {Interests} && c !in stages[j].drop;
      ReturningConstraintBreaksPair(stages, i, j, c);
    }
  }

  /** Each step of the default ladder drops at least what the one before dropped. */
  lemma DefaultStep(i: nat)
    requires i < 4
    ensures DEFAULT_LADDER[i].drop <= DEFAULT_LADDER[i + 1].drop
    ensures DEFAULT_LADDER[i].afterSeconds < DEFAULT_LADDER[i + 1].afterSeconds
  {
  }

  lemma {:induction false} DefaultSteps(i: nat, j: nat)
    requires i < j < 5
    ensures DEFAULT_LADDER[i].drop <= DEFAULT_LADDER[j].drop
    ensures DEFAULT_LADDER[i].afterSeconds < DEFAULT_LADDER[j].afterSeconds
    decreases j
  {
    DefaultStep(j - 1);
    if i < j - 1 {
      DefaultSteps(i, j - 1);
    }
  }

  lemma DefaultLadderIsNested()
    ensures Nested(DEFAULT_LADDER) && StrictlyIncreasing(DEFAULT_LADDER) && KeepsLegalPairs(DEFAULT_LADDER)
  {
    forall i, j | 0 <= i < j < |DEFAULT_LADDER|
      ensures DEFAULT_LADDER[i].drop - {Interests} <= DEFAULT_LADDER[j].drop
      ensures DEFAULT_LADDER[i].afterSeconds < DEFAULT_LADDER[j].afterSeconds
    {
      DefaultSteps(i, j);
    }
    LegalityGrowsIffNested(DEFAULT_LADDER);
  }

  /**
   What the default ladder still enforces after how long: interests for 5 seconds, age and language
   for 15, the country for 30, the gender for 60.
  */
  lemma DefaultLadderEnforces(a: Candidate, now: int)
    ensures var waitedMs := now - a.queuedAt;
      (IsEnforced(Interests, a, now, DEFAULT_LADDER) <==> waitedMs < 5_000) &&
      (IsEnforced(AgeBracket, a, now, DEFAULT_LADDER) <==> waitedMs < 15_000) &&
      (IsEnforced(Language, a, now, DEFAULT_LADDER) <==> waitedMs < 15_000) &&
      (IsEnforced(Country, a, now, DEFAULT_LADDER) <==> waitedMs < 30_000) &&
      (IsEnforced(GenderChoice, a, now, DEFAULT_LADDER) <==> waitedMs < 60_000)
  {
    var waited, index := Waited(a.queuedAt, now), StageOf(a, now, DEFAULT_LADDER);
    assert Reached(DEFAULT_LADDER[1], waited) <==> waited >= 5_000;
    assert Reached(DEFAULT_LADDER[2], waited) <==> waited >= 15_000;
    assert Reached(DEFAULT_LADDER[3], waited) <==> waited >= 30_000;
    assert Reached(DEFAULT_LADDER[4], waited) <==> waited >= 60_000;
    assert index < 5;
    assert index == 0 || Reached(DEFAULT_LADDER[index], waited);
    assert forall j | index < j < 5 :: !Reached(DEFAULT_LADDER[j], waited);
  }

  /** Under the default ladder, two people who have both waited a minute need only the hard rules. */
  lemma AfterAMinuteOnlyHardRules(a: Candidate, b: Candidate, now: int, occupied: set<UserId>)
    requires now >= a.queuedAt + 60_000 && now >= b.queuedAt + 60_000
    ensures Legal(a, b, now, DEFAULT_LADDER, occupied) <==> CheckHardRules(a, b, occupied).None?
  {
    LastStageOfDefault(a, now);
    LastStageOfDefault(b, now);
  }

  lemma LastStageOfDefault(c: Candidate, now: int)
    requires now >= c.queuedAt + 60_000
    ensures ActiveFor(c, now, DEFAULT_LADDER) == {}
  {
    assert Reached(DEFAULT_LADDER[4], Waited(c.queuedAt, now));
    assert StageOf(c, now, DEFAULT_LADDER) == 4;
  }
}
