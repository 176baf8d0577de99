/**
 The selection policy: hard rules, soft preferences under a relaxation ladder, a score, and the
 loop that picks the best legal partner.

 Times are epoch milliseconds. Scores are kept exact by counting in units of 1/2000 point, so
 that 1.5 points per second waited is 3 units per millisecond.
 */
module Matchmaking {
  import opened Common

  datatype Gender = Male | Female | NonBinary | OtherGender | Unspecified
  datatype GenderPreference = WantsMale | WantsFemale | WantsAny

  datatype Constraint = Interests | AgeBracket | Language | Country | GenderChoice

  datatype Stage = Stage(afterSeconds: nat, drop: set<Constraint>)
  type Ladder = seq<Stage>

  datatype Candidate = Candidate(
    userId: UserId,
    queuedAt: int,
    gender: Option<Gender>,
    country: Option<string>,
    languages: seq<string>,
    ageBracket: Option<string>,
    interestIds: seq<string>,
    preferredGender: GenderPreference,
    preferredCountries: seq<string>,
    preferredLanguages: seq<string>,
    preferredAgeBrackets: seq<string>,
    excludedUserIds: seq<UserId>,
    recentPartnerIds: seq<UserId>,
    priority: int)

  const DEFAULT_LADDER: Ladder := [
    Stage(0, {}),
    Stage(5, {Interests}),
    Stage(15, {Interests, AgeBracket, Language}),
    Stage(30, {Interests, AgeBracket, Language, Country}),
    Stage(60, {Interests, AgeBracket, Language, Country, GenderChoice})]

  // ---------------------------------------------------------------------------------------
  // The relaxation ladder
  // ---------------------------------------------------------------------------------------

  function Waited(queuedAt: int, now: int): nat { if now > queuedAt then now - queuedAt else 0 }

  predicate Reached(stage: Stage, waitedMs: nat) { waitedMs >= 1000 * stage.afterSeconds }

  /** The last of the first `n` stages that has been reached, or stage 0. */
  function LastReached(stages: Ladder, waitedMs: nat, n: nat): (index: nat)
    requires n <= |stages|
    ensures index == 0 || (index < n && Reached(stages[index], waitedMs))
    ensures forall j | index < j < n :: !Reached(stages[j], waitedMs)
  {
    if n == 0 then 0
    else if Reached(stages[n - 1], waitedMs) then n - 1
    else LastReached(stages, waitedMs, n - 1)
  }

  function StageOf(c: Candidate, now: int, stages: Ladder): nat {
    LastReached(stages, Waited(c.queuedAt, now), |stages|)
  }

  /** relaxationStageFor: a forward scan that remembers the last stage reached. */
  method RelaxationStageFor(c: Candidate, now: int, stages: Ladder) returns (index: nat)
    ensures index == StageOf(c, now, stages)
  {
    var waitedMs := Waited(c.queuedAt, now);
    index := 0;
    for i := 0 to |stages|
      invariant index == LastReached(stages, waitedMs, i)
    {
      if Reached(stages[i], waitedMs) { index := i; }
    }
  }

  /** The soft constraints still enforced at a stage; an index off the ladder drops nothing. */
  function ActiveConstraints(stageIndex: nat, stages: Ladder): set<Constraint> {
    {Interests, AgeBracket, Language, Country, GenderChoice} -
    (if stageIndex < |stages| then stages[stageIndex].drop else {})
  }

  function ActiveFor(c: Candidate, now: int, stages: Ladder): set<Constraint> {
    ActiveConstraints(StageOf(c, now, stages), stages)
  }

  // ---------------------------------------------------------------------------------------
  // Hard and soft rules
  // ---------------------------------------------------------------------------------------

  datatype Violation = Self | Blocked | Occupied

  function CheckHardRules(seeker: Candidate, candidate: Candidate, occupied: set<UserId>): Option<Violation> {
    if seeker.userId == candidate.userId then Some(Self)
    else if candidate.userId in seeker.excludedUserIds || seeker.userId in candidate.excludedUserIds then Some(Blocked)
    else if candidate.userId in occupied || seeker.userId in occupied then Some(Occupied)
    else None
  }

  predicate GenderSatisfied(preference: GenderPreference, actual: Option<Gender>) {
    preference == WantsAny ||
    (preference == WantsMale && actual == Some(Male)) ||
    (preference == WantsFemale && actual == Some(Female))
  }

  /** An empty wish list accepts everyone; otherwise the value must be present and listed. */
  predicate Accepts(wanted: seq<string>, actual: Option<string>) {
    wanted == [] || (actual.Some? && actual.value != "" && actual.value in wanted)
  }

  /** One-directional: does `candidate` satisfy what `seeker` still insists on? Interests never filter. */
  predicate SatisfiesPreferences(seeker: Candidate, candidate: Candidate, active: set<Constraint>) {
    (GenderChoice in active ==> GenderSatisfied(seeker.preferredGender, candidate.gender)) &&
    (Country in active ==> Accepts(seeker.preferredCountries, candidate.country)) &&
    (Language in active && seeker.preferredLanguages != [] ==>
      exists l :: l in candidate.languages && l in seeker.preferredLanguages) &&
    (AgeBracket in active ==> Accepts(seeker.preferredAgeBrackets, candidate.ageBracket))
  }

  /** The pair may be made: hard rules, and each side's preferences at its own stage. */
  predicate Legal(seeker: Candidate, candidate: Candidate, now: int, stages: Ladder, occupied: set<UserId>) {
    CheckHardRules(seeker, candidate, occupied).None? &&
    SatisfiesPreferences(seeker, candidate, ActiveFor(seeker, now, stages)) &&
    SatisfiesPreferences(candidate, seeker, ActiveFor(candidate, now, stages))
  }

  // ---------------------------------------------------------------------------------------
  // Scoring, in units of 1/2000 point
  // ---------------------------------------------------------------------------------------

  const UNIT: int := 2000

  datatype Score = Score(sharedInterests: int, sharedLanguages: int, countryPreference: int,
                         waitTime: int, priority: int, recentPartnerPenalty: int)
  {
    function Total(): int {
      sharedInterests + sharedLanguages + countryPreference + waitTime + priority + recentPartnerPenalty
    }
  }

  function Min(a: int, b: int): int { if a < b then a else b }

  /** The members of `a` that also occur in `b`, in `a`'s order and multiplicity. */
  function Shared(a: seq<string>, b: seq<string>): seq<string> {
    if a == [] then [] else (if a[0] in b then [a[0]] else []) + Shared(a[1..], b)
  }

  predicate WantsCountryOf(a: Candidate, b: Candidate) {
    b.country.Some? && b.country.value in a.preferredCountries
  }

  predicate RecentPartners(a: Candidate, b: Candidate) {
    b.userId in a.recentPartnerIds || a.userId in b.recentPartnerIds
  }

  function ScorePair(seeker: Candidate, candidate: Candidate, now: int): Score {
    Score(
      Min(|Shared(seeker.interestIds, candidate.interestIds)| * 12, 48) * UNIT,
      Min(|Shared(seeker.languages, candidate.languages)| * 8, 16) * UNIT,
      (if WantsCountryOf(seeker, candidate) && WantsCountryOf(candidate, seeker) then 15
       else if WantsCountryOf(seeker, candidate) || WantsCountryOf(candidate, seeker) then 7
       else 0) * UNIT,
      Min(3 * (now - Min(seeker.queuedAt, candidate.queuedAt)), 60 * UNIT),
      candidate.priority * 10 * UNIT,
      if RecentPartners(seeker, candidate) then -500 * UNIT else 0)
  }

  // ---------------------------------------------------------------------------------------
  // Selection
  // ---------------------------------------------------------------------------------------

  datatype Selection = Selection(candidate: Candidate, score: Score, sharedInterestIds: seq<string>,
                                 seekerStage: nat, candidateStage: nat)

  predicate IsBetter(score: Score, candidate: Candidate, current: Selection) {
    if score.Total() != current.score.Total() then score.Total() > current.score.Total()
    else if candidate.queuedAt != current.candidate.queuedAt then candidate.queuedAt < current.candidate.queuedAt
    else candidate.userId < current.candidate.userId
  }

  /** The order selection promises: higher score, then longer wait, then smaller user id. */
  predicate Outranks(seeker: Candidate, now: int, a: Candidate, b: Candidate) {
    var x, y := ScorePair(seeker, a, now).Total(), ScorePair(seeker, b, now).Total();
    x > y || (x == y && (a.queuedAt < b.queuedAt || (a.queuedAt == b.queuedAt && a.userId < b.userId)))
  }

  /** Nobody legal in the pool, or a legal member that no legal member outranks. */
  ghost predicate IsBest(seeker: Candidate, pool: seq<Candidate>, now: int, stages: Ladder, occupied: set<UserId>,
                         result: Option<Selection>)
  {
    match result
    case None => forall c | c in pool :: !Legal(seeker, c, now, stages, occupied)
    case Some(s) =>
      s.candidate in pool && Legal(seeker, s.candidate, now, stages, occupied) &&
      (forall c | c in pool && Legal(seeker, c, now, stages, occupied) :: !Outranks(seeker, now, c, s.candidate)) &&
      s == Selection(s.candidate, ScorePair(seeker, s.candidate, now),
                     Shared(seeker.interestIds, s.candidate.interestIds),
                     StageOf(seeker, now, stages), StageOf(s.candidate, now, stages))
  }

  lemma BestIsFirst(seeker: Candidate, pool: seq<Candidate>, now: int, stages: Ladder, occupied: set<UserId>,
                    best: Selection)
    requires IsBest(seeker, pool, now, stages, occupied, Some(best))
    ensures var c := best.candidate;
      c.userId != seeker.userId && c.userId !in seeker.excludedUserIds && seeker.userId !in c.excludedUserIds &&
      c.userId !in occupied && seeker.userId !in occupied
    ensures forall d | d in pool && Legal(seeker, d, now, stages, occupied) :: ComesFirst(seeker, now, best, d)
  {
    forall d | d in pool && Legal(seeker, d, now, stages, occupied) ensures ComesFirst(seeker, now, best, d) {
      assert !Outranks(seeker, now, d, best.candidate);
    }
  }

  /** `d` scores less than the choice, or as much with a shorter wait, or waits as long under no smaller id. */
  predicate ComesFirst(seeker: Candidate, now: int, best: Selection, d: Candidate) {
    var total := ScorePair(seeker, d, now).Total();
    total < best.score.Total() ||
    (total == best.score.Total() &&
     (best.candidate.queuedAt < d.queuedAt ||
      (best.candidate.queuedAt == d.queuedAt && best.candidate.userId <= d.userId)))
  }

  /**
   selectBestMatch. The choice is never the seeker, never on either block list and never occupied;
   and every other legal member scores less, or as much with a shorter wait, or waits as long under
   a greater id.
  */
  method SelectBestMatch(seeker: Candidate, pool: seq<Candidate>, now: int, stages: Ladder, occupied: set<UserId>)
    returns (best: Option<Selection>)
    ensures IsBest(seeker, pool, now, stages, occupied, best)
    ensures best.Some? ==>
      var c := best.value.candidate;
      c.userId != seeker.userId && c.userId !in seeker.excludedUserIds && seeker.userId !in c.excludedUserIds &&
      c.userId !in occupied && seeker.userId !in occupied
    ensures best.Some? ==>
      forall d | d in pool && Legal(seeker, d, now, stages, occupied) :: ComesFirst(seeker, now, best.value, d)
  {
    var seekerStage := RelaxationStageFor(seeker, now, stages);
    var seekerActive := ActiveConstraints(seekerStage, stages);
    best := None;
    for i := 0 to |pool|
      invariant IsBest(seeker, pool[..i], now, stages, occupied, best)
    {
      var candidate := pool[i];
      assert pool[..i + 1] == pool[..i] + [candidate];
      if CheckHardRules(seeker, candidate, occupied).Some? { continue; }
      if !SatisfiesPreferences(seeker, candidate, seekerActive) { continue; }
      var candidateStage := RelaxationStageFor(candidate, now, stages);
      var candidateActive := ActiveConstraints(candidateStage, stages);
      if !SatisfiesPreferences(candidate, seeker, candidateActive) { continue; }
      var score := ScorePair(seeker, candidate, now);
      if best.None? || IsBetter(score, candidate, best.value) {
        best := Some(Selection(candidate, score, Shared(seeker.interestIds, candidate.interestIds),
                               seekerStage, candidateStage));
      }
    }
    assert pool[..|pool|] == pool;
    if best.Some? { BestIsFirst(seeker, pool, now, stages, occupied, best.value); }
  }
}
