/**
 The campaign service as it runs: `claim` statement by statement, with other claims, failures and
 crashes in between, and `applyEligible` claiming one campaign after another.
*/
module CampaignsService {
  import opened Common
  import opened Ledger
  import opened Campaigns
  import opened CampaignBudget

  datatype ClaimOutcome = GrantedTokens(campaign: CampaignId, tokens: nat) | NotEntitled | Threw

  /** What `applyEligible` reads about a campaign before it tries to claim it. */
  datatype Listing = Listing(id: CampaignId, status: CampaignStatus, startsAt: Option<int>, endsAt: Option<int>,
                             createdAt: int, newUsersOnly: bool, requiresVerifiedEmail: bool,
                             cap: Option<nat>, issued: int)

  datatype User = User(id: UserId, createdAt: int, emailVerified: bool, deleted: bool)

  predicate IsLive(l: Listing, now: int) {
    l.status == Active && (l.startsAt.Some? ==> l.startsAt.value <= now) && (l.endsAt.Some? ==> now <= l.endsAt.value)
  }

  /** NEW_USERS means created since the start, or since the campaign itself if no start was set. */
  predicate Qualifies(l: Listing, user: User) {
    (l.requiresVerifiedEmail ==> user.emailVerified) &&
    (l.newUsersOnly ==> user.createdAt >= (if l.startsAt.Some? then l.startsAt.value else l.createdAt))
  }

  predicate LooksOpen(l: Listing) { l.cap.Some? ==> l.issued < l.cap.value }

  /** Some listing of `c` is live, open and meant for this user. */
  ghost predicate MayGrant(listings: seq<Listing>, c: CampaignId, user: User, now: int) {
    exists l :: l in listings && l.id == c && IsLive(l, now) && Qualifies(l, user) && LooksOpen(l)
  }

  /** The other processes run under ids below `mine`. */
  predicate IsForeign(e: Event, mine: nat) {
    match e
    case Begin(r, _, _) => r < mine
    case Advance(r) => r < mine
    case GrantFails(r) => r < mine
    case ReleaseFails(r) => r < mine
    case Crash(r) => r < mine
    case _ => true
  }

  lemma {:induction false} ForeignersLeaveRunAlone(s: State, events: seq<Event>, mine: nat, r: nat)
    requires r in s.runs && r >= mine && forall e | e in events :: IsForeign(e, mine)
    ensures r in Campaigns.Execute(s, events).runs && Campaigns.Execute(s, events).runs[r] == s.runs[r]
  {
    if events != [] {
      assert IsForeign(events[|events| - 1], mine);
      ForeignersLeaveRunAlone(s, events[..|events| - 1], mine, r);
    }
  }

  /** A grant is never taken back. */
  lemma {:induction false} GrantsOnlyGrow(s: State, events: seq<Event>)
    ensures s.grants <= Campaigns.Execute(s, events).grants
  {
    if events != [] {
      GrantsOnlyGrow(s, events[..|events| - 1]);
    }
  }

  /** Which statements of a claim throw. */
  datatype Failures = Failures(campaign: bool, grant: bool, reserve: bool, transaction: bool, release: bool)
  {
    predicate Any() { campaign || grant || reserve || transaction }
  }

  ghost predicate Undisturbed(others: nat -> seq<Event>) { forall i :: others(i) == [] }

  /** An active campaign with room, and a user it has not been granted to. */
  predicate Entitled(s: State, c: CampaignId, user: UserId) {
    c in s.campaigns && (c, user) !in s.grants && s.campaigns[c].status == Active &&
    (s.campaigns[c].cap.Some? ==> s.campaigns[c].issued < s.campaigns[c].cap.value)
  }

  /** What a claim nobody interferes with leads to. */
  ghost predicate ClaimedAlone(s: State, s': State, c: CampaignId, user: UserId, outcome: ClaimOutcome) {
    if Entitled(s, c, user)
    then outcome == GrantedTokens(c, s.campaigns[c].tokens) && s'.campaigns == AddIssued(s.campaigns, c, 1) &&
         s'.grants == s.grants + {(c, user)} && s'.books == Grant(s.books, c, user, s.campaigns[c].tokens)
    else outcome == NotEntitled && s'.(runs := s.runs) == s
  }

  /** The account has the amount more, as balance and as earnings, and the ledger one PROMO row more. */
  predicate PaidOut(b: Books, b': Books, run: Run) {
    b'.accounts == b.accounts[run.user := if run.user in b.accounts
      then b.accounts[run.user].(balance := b.accounts[run.user].balance + run.amount,
                                 lifetimeEarned := b.accounts[run.user].lifetimeEarned + run.amount)
      else Account(run.amount, run.amount, 0)] &&
    b'.ledger == b.ledger + [Row(run.user, run.amount, Promo, BalanceOf(b, run.user) + run.amount,
                                 None, Some(run.campaign))]
  }

  lemma GrantPaysOut(b: Books, run: Run)
    ensures PaidOut(b, Grant(b, run.campaign, run.user, run.amount), run)
  {
  }

  predicate HasTerms(s: State, run: Run) {
    run.campaign in s.campaigns && run.cap == s.campaigns[run.campaign].cap &&
    run.amount == s.campaigns[run.campaign].tokens
  }

  /** The statements of one claim after its first, with nothing in between. */
  lemma AloneLeadsToClaim(s: State, r: nat)
    requires r in s.runs && s.runs[r].phase == ReadGrant && HasTerms(s, s.runs[r])
    ensures var run, s1 := s.runs[r], AdvanceRun(s, r);
      if !Reply(s, run) then ClaimedAlone(s, s1, run.campaign, run.user, NotEntitled)
      else
        var s2 := AdvanceRun(s1, r);
        if !CanReserve(s1, s1.runs[r]) then ClaimedAlone(s, s2, run.campaign, run.user, NotEntitled)
        else ClaimedAlone(s, AdvanceRun(s2, r), run.campaign, run.user, GrantedTokens(run.campaign, run.amount))
  {
    var run, s1 := s.runs[r], AdvanceRun(s, r);
    assert s1.(runs := s.runs) == s;
    if Reply(s, run) {
      var s2 := AdvanceRun(s1, r);
      assert s1.runs[r] == run.(phase := Reserve);
      if CanReserve(s1, s1.runs[r]) {
        assert s2.runs[r] == run.(phase := Granting) && s2.grants == s.grants && s2.books == s.books;
      }
    }
  }

  /** The run has ended, and succeeded exactly if the outcome says so, with the tokens it says. */
  predicate IsOver(run: Run, outcome: ClaimOutcome) {
    (run.phase == Finished || run.phase == SlotLost) &&
    run.granted == outcome.GrantedTokens? && (run.granted ==> run.amount == outcome.tokens)
  }

  class Service {
    var campaigns: map<CampaignId, Campaign>
    var grants: set<(CampaignId, UserId)>
    var accounts: map<UserId, Account>
    var ledger: seq<Row>
    var purchases: map<PurchaseRef, Purchase>
    var tips: seq<Tip>
    var runs: map<nat, Run>
    var history: seq<Event>

    ghost function Now(): State
      reads this
    {
      State(campaigns, grants, Books(accounts, ledger, purchases, tips), runs)
    }

    /** The tables are what the recorded events made of empty ones. */
    ghost predicate Valid()
      reads this
    {
      Now() == Campaigns.Execute(NOTHING, history)
    }

    constructor ()
      ensures Valid() && history == []
    {
      campaigns, grants, runs, history := map[], {}, map[], [];
      accounts, ledger, purchases, tips := map[], [], map[], [];
    }

    twostate predicate Happened(e: Event)
      reads this
    {
      Now() == Next(old(Now()), e) && history == old(history) + [e]
    }

    twostate lemma HappenedKeepsValid(e: Event)
      requires old(Valid()) && Happened(e)
      ensures Valid()
    {
      assert history[..|history| - 1] == old(history);
    }

    /** The state the next statement finds, after whatever the others do first. */
    ghost function Here(others: nat -> seq<Event>): State
      reads this
    {
      Campaigns.Execute(Now(), others(|history|))
    }

    /** Nothing is forgotten, and no run under an id of ours but `r` has moved. */
    twostate predicate Continues(mine: nat, r: nat)
      reads this
    {
      Valid() && old(history) <= history && old(grants) <= grants && r in runs &&
      forall q | q in old(runs) && q >= mine && q != r :: q in runs && runs[q] == old(runs)[q]
    }

    method Others(r: nat, mine: nat, others: nat -> seq<Event>)
      requires Valid() && r in runs && r >= mine
      requires forall i: nat, e | e in others(i) :: IsForeign(e, mine)
      modifies this
      ensures Continues(mine, r) && runs[r] == old(runs)[r] && Now() == old(Here(others))
    {
      var events := others(|history|);
      forall q | q in runs && q >= mine
        ensures q in Campaigns.Execute(Now(), events).runs && Campaigns.Execute(Now(), events).runs[q] == runs[q]
      {
        ForeignersLeaveRunAlone(Now(), events, mine, q);
      }
      GrantsOnlyGrow(Now(), events);
      ExecuteConcat(NOTHING, history, events);
      var s := Campaigns.Execute(State(campaigns, grants, Books(accounts, ledger, purchases, tips), runs), events);
      campaigns, grants, runs := s.campaigns, s.grants, s.runs;
      accounts, ledger, purchases, tips := s.books.accounts, s.books.ledger, s.books.purchases, s.books.tips;
      history := history + events;
    }

    method Record(r: nat, run: Run, e: Event)
      modifies this`runs, this`history
      ensures runs == old(runs)[r := run] && history == old(history) + [e]
    {
      runs := runs[r := run];
      history := history + [e];
    }

    method BeginClaim(campaign: CampaignId, user: UserId, mine: nat) returns (r: nat)
      requires Valid()
      modifies this
      ensures r !in old(runs) && r >= mine && Continues(mine, r)
      ensures Now() == Next(old(Now()), Begin(r, campaign, user))
    {
      ghost var unused := SomeIdIsUnused(runs.Keys, mine);
      assert unused >= mine && unused !in runs;
      r :| r >= mine && r !in runs;
      Record(r, Run(campaign, user, ReadCampaign, None, 0, false), Begin(r, campaign, user));
      HappenedKeepsValid(Begin(r, campaign, user));
    }

    /** A statement throws before it has had any effect, in a run that holds no slot. */
    method Throw(r: nat, mine: nat, others: nat -> seq<Event>)
      requires Valid() && r in runs && r >= mine && !HoldsSlot(runs[r])
      requires forall i: nat, e | e in others(i) :: IsForeign(e, mine)
      modifies this
      ensures Continues(mine, r) && runs[r] == old(runs)[r].(phase := Finished)
    {
      Others(r, mine, others);
      label statement:
      Record(r, Crashed(runs[r]), Crash(r));
      HappenedKeepsValid@statement(Crash(r));
    }

    method FindCampaign(r: nat, mine: nat, others: nat -> seq<Event>) returns (found: bool)
      requires Valid() && r in runs && r >= mine && runs[r].phase == ReadCampaign
      requires forall i: nat, e | e in others(i) :: IsForeign(e, mine)
      modifies this
      ensures Continues(mine, r) && r in old(Here(others)).runs && old(Here(others)).runs[r] == old(runs)[r]
      ensures Now() == AdvanceRun(old(Here(others)), r) && found == Reply(old(Here(others)), old(runs)[r])
    {
      Others(r, mine, others);
      label statement:
      var run := runs[r];
      found := run.campaign in campaigns;
      if found {
        run := run.(cap := campaigns[run.campaign].cap, amount := campaigns[run.campaign].tokens);
      }
      Record(r, NextRun(run, found), Advance(r));
      HappenedKeepsValid@statement(Advance(r));
    }

    method FindGrant(r: nat, mine: nat, others: nat -> seq<Event>) returns (existing: bool)
      requires Valid() && r in runs && r >= mine && runs[r].phase == ReadGrant
      requires forall i: nat, e | e in others(i) :: IsForeign(e, mine)
      modifies this
      ensures Continues(mine, r) && r in old(Here(others)).runs && old(Here(others)).runs[r] == old(runs)[r]
      ensures Now() == AdvanceRun(old(Here(others)), r) && existing == !Reply(old(Here(others)), old(runs)[r])
      ensures existing == ((runs[r].campaign, runs[r].user) in grants)
    {
      Others(r, mine, others);
      label statement:
      existing := (runs[r].campaign, runs[r].user) in grants;
      Record(r, NextRun(runs[r], !existing), Advance(r));
      HappenedKeepsValid@statement(Advance(r));
    }

    method IncrementIssued(campaign: CampaignId, n: int)
      requires campaign in campaigns
      modifies this`campaigns
      ensures campaigns == AddIssued(old(campaigns), campaign, n)
    {
      campaigns := campaigns[campaign := campaigns[campaign].(issued := campaigns[campaign].issued + n)];
    }

    /**
     The conditional update; the number of affected rows is the answer. A slot is taken exactly if
     the campaign, as the statement finds it, is active and below the limit the claim has read.
    */
    method ReserveSlot(r: nat, mine: nat, others: nat -> seq<Event>) returns (reserved: bool)
      requires Valid() && r in runs && r >= mine && runs[r].phase == Reserve
      requires forall i: nat, e | e in others(i) :: IsForeign(e, mine)
      modifies this
      ensures Continues(mine, r) && r in old(Here(others)).runs && old(Here(others)).runs[r] == old(runs)[r]
      ensures Now() == AdvanceRun(old(Here(others)), r) && reserved == CanReserve(old(Here(others)), old(runs)[r])
      ensures var before, run := old(Here(others)).campaigns, old(runs)[r];
        reserved <==>
          run.campaign in before && before[run.campaign].status == Active &&
          (before[run.campaign].cap.Some? && run.cap.Some? ==> before[run.campaign].issued < run.cap.value) &&
          (before[run.campaign].cap.Some? && run.cap.None? ==> before[run.campaign].issued < 9_007_199_254_740_991)
      ensures var before, c := old(Here(others)).campaigns, runs[r].campaign;
        if reserved then campaigns == AddIssued(before, c, 1) && runs[r].phase == Granting
        else campaigns == before && runs[r].phase == Finished
    {
      Others(r, mine, others);
      label statement:
      var run := runs[r];
      reserved := run.campaign in campaigns && campaigns[run.campaign].status == Active &&
                  (campaigns[run.campaign].cap.None? || campaigns[run.campaign].issued < Limit(run));
      if reserved {
        IncrementIssued(run.campaign, 1);
      }
      Record(r, NextRun(run, reserved), Advance(r));
      HappenedKeepsValid@statement(Advance(r));
    }

    /**
     The grant, the account and the ledger row, or - on the unique index or any failure - nothing:
     a grant that is absent when the transaction runs is made unless the transaction throws.
    */
    method GrantTransaction(r: nat, mine: nat, others: nat -> seq<Event>, fails: bool) returns (granted: bool)
      requires Valid() && r in runs && r >= mine && runs[r].phase == Granting
      requires forall i: nat, e | e in others(i) :: IsForeign(e, mine)
      modifies this
      ensures Continues(mine, r) && r in old(Here(others)).runs && old(Here(others)).runs[r] == old(runs)[r]
      ensures Now() == Next(old(Here(others)), if fails then GrantFails(r) else Advance(r))
      ensures var run := old(runs)[r];
        granted == (!fails && (run.campaign, run.user) !in old(Here(others)).grants) &&
        (granted ==> PaidOut(old(Here(others)).books, Books(accounts, ledger, purchases, tips), run)) &&
        (granted ==> (run.campaign, run.user) in grants && (run.campaign, run.user) !in old(grants))
    {
      Others(r, mine, others);
      label statement:
      var run := runs[r];
      if fails {
        Record(r, run.(phase := Releasing), GrantFails(r));
        HappenedKeepsValid@statement(GrantFails(r));
        return false;
      }
      granted := (run.campaign, run.user) !in grants;
      if granted {
        GrantPaysOut(Books(accounts, ledger, purchases, tips), run);
        WriteGrant(run.campaign, run.user, run.amount);
      }
      Record(r, NextRun(run, granted), Advance(r));
      HappenedKeepsValid@statement(Advance(r));
    }

    method WriteGrant(campaign: CampaignId, user: UserId, amount: nat)
      modifies this`grants, this`accounts, this`ledger
      ensures grants == old(grants) + {(campaign, user)}
      ensures Books(accounts, ledger, purchases, tips) ==
              Grant(Books(old(accounts), old(ledger), purchases, tips), campaign, user, amount)
    {
      grants := grants + {(campaign, user)};
      accounts := Credited(accounts, user, amount, amount, 0);
      ledger := ledger + [Row(user, amount, Promo, accounts[user].balance, None, Some(campaign))];
    }

    /** releaseSlot: the counter falls by one, floored at zero; a failing update is only logged. */
    method ReleaseSlot(r: nat, mine: nat, others: nat -> seq<Event>, fails: bool)
      requires Valid() && r in runs && r >= mine && runs[r].phase == Releasing
      requires forall i: nat, e | e in others(i) :: IsForeign(e, mine)
      modifies this
      ensures Continues(mine, r) && runs[r] == old(runs)[r].(phase := if fails then SlotLost else Finished)
      ensures Now() == Next(old(Here(others)), if fails then ReleaseFails(r) else Advance(r))
      ensures !fails ==> runs[r].campaign in campaigns &&
                         campaigns == AddIssued(old(Here(others)).campaigns, runs[r].campaign, -1)
    {
      Others(r, mine, others);
      label statement:
      var run := runs[r];
      if fails {
        Record(r, run.(phase := SlotLost), ReleaseFails(r));
        HappenedKeepsValid@statement(ReleaseFails(r));
        return;
      }
      InvAlways(history);
      ReleasingMeansIssued(Now(), r);
      if run.campaign in campaigns && campaigns[run.campaign].issued > 0 {
        IncrementIssued(run.campaign, -1);
      }
      Record(r, NextRun(run, true), Advance(r));
      HappenedKeepsValid@statement(Advance(r));
    }

    /**
     One claim, in any environment. It reports tokens exactly when it itself made the grant, which
     did not exist when it began; undisturbed, it grants exactly if the user is entitled; and the
     tables stay reachable, so the budget results apply.
    */
    method Claim(campaign: CampaignId, user: UserId, mine: nat, others: nat -> seq<Event>, fails: Failures)
      returns (outcome: ClaimOutcome, r: nat)
      requires Valid()
      requires forall i: nat, e | e in others(i) :: IsForeign(e, mine)
      modifies this
      ensures r !in old(runs) && r >= mine && Continues(mine, r)
      ensures outcome.GrantedTokens? ==> outcome.campaign == campaign &&
                                         (campaign, user) in grants && (campaign, user) !in old(grants)
      ensures outcome.Threw? ==> fails.Any()
      ensures runs[r].campaign == campaign && runs[r].user == user && IsOver(runs[r], outcome)
      ensures Undisturbed(others) && !fails.Any() ==> ClaimedAlone(old(Now()), Now(), campaign, user, outcome)
    {
      r := BeginClaim(campaign, user, mine);
      if fails.campaign { Throw(r, mine, others); outcome := Threw; return; }
      label begun:
      var found := FindCampaign(r, mine, others);
      if !found { outcome := NotEntitled; return; }
      outcome := ClaimOpen(r, mine, others, fails);
    }

    method ClaimOpen(r: nat, mine: nat, others: nat -> seq<Event>, fails: Failures)
      returns (outcome: ClaimOutcome)
      requires Valid() && r in runs && r >= mine && runs[r].phase == ReadGrant && !runs[r].granted
      requires forall i: nat, e | e in others(i) :: IsForeign(e, mine)
      modifies this
      ensures Continues(mine, r)
      ensures var run := old(runs)[r];
        outcome.GrantedTokens? ==> outcome.campaign == run.campaign &&
                                   (run.campaign, run.user) in grants && (run.campaign, run.user) !in old(grants)
      ensures outcome.Threw? ==> fails.Any()
      ensures runs[r].campaign == old(runs)[r].campaign && runs[r].user == old(runs)[r].user
      ensures IsOver(runs[r], outcome)
      ensures var run := old(runs)[r];
        Undisturbed(others) && !fails.Any() && HasTerms(old(Now()), run) ==>
          ClaimedAlone(old(Now()), Now(), run.campaign, run.user, outcome)
    {
      if fails.grant { Throw(r, mine, others); return Threw; }
      ghost var alone := Undisturbed(others) && HasTerms(Now(), runs[r]);
      if alone { AloneLeadsToClaim(Now(), r); }
      var existing := FindGrant(r, mine, others);
      if existing { return NotEntitled; }
      outcome := ReserveAndGrant(r, mine, others, fails);
    }

    /** With no earlier grant in sight: a slot, and then the grant. */
    method ReserveAndGrant(r: nat, mine: nat, others: nat -> seq<Event>, fails: Failures)
      returns (outcome: ClaimOutcome)
      requires Valid() && r in runs && r >= mine && runs[r].phase == Reserve && !runs[r].granted
      requires forall i: nat, e | e in others(i) :: IsForeign(e, mine)
      modifies this
      ensures Continues(mine, r)
      ensures var run := old(runs)[r];
        outcome.GrantedTokens? ==> outcome.campaign == run.campaign &&
                                   (run.campaign, run.user) in grants && (run.campaign, run.user) !in old(grants)
      ensures outcome.Threw? ==> fails.Any()
      ensures runs[r].campaign == old(runs)[r].campaign && runs[r].user == old(runs)[r].user
      ensures IsOver(runs[r], outcome)
      ensures var run, before := old(runs)[r], old(Now());
        Undisturbed(others) && !fails.Any() && (run.campaign, run.user) !in old(grants) ==>
          if CanReserve(before, run)
          then r in AdvanceRun(before, r).runs && outcome == GrantedTokens(run.campaign, run.amount) &&
               Now() == AdvanceRun(AdvanceRun(before, r), r)
          else outcome == NotEntitled && Now() == AdvanceRun(before, r)
    {
      if fails.reserve { Throw(r, mine, others); return Threw; }
      var reserved := ReserveSlot(r, mine, others);
      if !reserved { return NotEntitled; }
      outcome := GrantOrRelease(r, mine, others, fails);
    }

    /** With a slot in hand: the transaction, or the slot goes back. */
    method GrantOrRelease(r: nat, mine: nat, others: nat -> seq<Event>, fails: Failures)
      returns (outcome: ClaimOutcome)
      requires Valid() && r in runs && r >= mine && runs[r].phase == Granting && !runs[r].granted
      requires forall i: nat, e | e in others(i) :: IsForeign(e, mine)
      modifies this
      ensures Continues(mine, r)
      ensures var run := old(runs)[r];
        outcome.GrantedTokens? ==> outcome.campaign == run.campaign &&
                                   (run.campaign, run.user) in grants && (run.campaign, run.user) !in old(grants)
      ensures outcome.Threw? ==> fails.Any()
      ensures runs[r].campaign == old(runs)[r].campaign && runs[r].user == old(runs)[r].user
      ensures IsOver(runs[r], outcome)
      ensures var run := old(runs)[r];
        Undisturbed(others) && !fails.transaction && (run.campaign, run.user) !in old(grants) ==>
          outcome == GrantedTokens(run.campaign, run.amount) && Now() == AdvanceRun(old(Now()), r)
    {
      var run := runs[r];
      var granted := GrantTransaction(r, mine, others, fails.transaction);
      if granted { return GrantedTokens(run.campaign, run.amount); }
      ReleaseSlot(r, mine, others, fails.release);
      outcome := if fails.transaction then Threw else NotEntitled;
    }

    /** The run of one of our claims that made this grant. */
    twostate predicate GrantedHere(mine: nat, c: CampaignId, user: UserId)
      reads this
    {
      exists r :: r in runs && r !in old(runs) && r >= mine &&
                  runs[r].campaign == c && runs[r].user == user && runs[r].granted
    }

    /**
     applyEligible: claims, in order, every live campaign the user qualifies for. What it reports
     was granted by its own claims, once each, from campaigns it may grant; undisturbed, it leaves
     out none that the user is entitled to; it never throws.
    */
    method ApplyEligible(user: Option<User>, now: int, listings: seq<Listing>, mine: nat,
                         others: nat -> seq<Event>, readFails: bool, fails: nat -> Failures)
      returns (granted: seq<CampaignId>)
      requires Valid()
      requires forall i: nat, e | e in others(i) :: IsForeign(e, mine)
      modifies this
      ensures Valid() && old(history) <= history && old(grants) <= grants
      ensures readFails || user.None? || user.value.deleted ==> granted == [] && Now() == old(Now())
      ensures forall i, j | 0 <= i < j < |granted| :: granted[i] != granted[j]
      ensures forall c | c in granted ::
        user.Some? && (c, user.value.id) in grants && (c, user.value.id) !in old(grants) &&
        GrantedHere(mine, c, user.value.id)
      ensures forall c | c in granted ::
        exists l :: l in listings && l.id == c && l.status == Active &&
                    (l.startsAt.Some? ==> now >= l.startsAt.value) && (l.endsAt.Some? ==> now <= l.endsAt.value) &&
                    (l.cap.Some? ==> l.issued < l.cap.value) &&
                    (l.requiresVerifiedEmail ==> user.value.emailVerified) &&
                    (l.newUsersOnly && l.startsAt.Some? ==> user.value.createdAt >= l.startsAt.value) &&
                    (l.newUsersOnly && l.startsAt.None? ==> user.value.createdAt >= l.createdAt)
      ensures Undisturbed(others) && (forall i :: !fails(i).Any()) && !readFails &&
              user.Some? && !user.value.deleted ==>
        forall l | l in listings && l.status == Active &&
                   (l.startsAt.Some? ==> now >= l.startsAt.value) && (l.endsAt.Some? ==> now <= l.endsAt.value) &&
                   (l.cap.Some? ==> l.issued < l.cap.value) &&
                   (l.requiresVerifiedEmail ==> user.value.emailVerified) &&
                   (l.newUsersOnly && l.startsAt.Some? ==> user.value.createdAt >= l.startsAt.value) &&
                   (l.newUsersOnly && l.startsAt.None? ==> user.value.createdAt >= l.createdAt) &&
                   l.id in old(campaigns) && (l.id, user.value.id) !in old(grants) &&
                   old(campaigns)[l.id].status == Active &&
                   (old(campaigns)[l.id].cap.Some? ==>
                      old(campaigns)[l.id].issued < old(campaigns)[l.id].cap.value) ::
          l.id in granted
    {
      granted := [];
      if readFails || user.None? || user.value.deleted { return; }
      var id := user.value.id;
      for i := 0 to |listings|
        invariant Valid() && old(history) <= history && old(grants) <= grants
        invariant forall q | q in old(runs) && q >= mine :: q in runs && runs[q] == old(runs)[q]
        invariant forall i, j | 0 <= i < j < |granted| :: granted[i] != granted[j]
        invariant forall c | c in granted ::
          (c, id) in grants && (c, id) !in old(grants) && GrantedHere(mine, c, id) &&
          MayGrant(listings, c, user.value, now)
        invariant Undisturbed(others) && (forall i :: !fails(i).Any()) ==>
          (forall c | Entitled(old(Now()), c, id) :: c in granted || Entitled(Now(), c, id)) &&
          (forall c | MayGrant(listings[..i], c, user.value, now) && Entitled(old(Now()), c, id) :: c in granted)
      {
        var l := listings[i];
        assert listings[..i + 1] == listings[..i] + [l];
        if !IsLive(l, now) { continue; }
        if !Qualifies(l, user.value) { continue; }
        if !LooksOpen(l) { continue; }
        var outcome, r := Claim(l.id, id, mine, others, fails(i));
        if outcome.Threw? { return []; }
        if outcome.GrantedTokens? {
          assert l.id !in granted;
          granted := granted + [l.id];
        }
      }
      assert listings[..|listings|] == listings;
      forall c | c in granted ensures MayGrant(listings, c, user.value, now) {}
      forall l | l in listings && IsLive(l, now) && Qualifies(l, user.value) && LooksOpen(l)
        ensures MayGrant(listings, l.id, user.value, now)
      {
      }
    }
  }
}
