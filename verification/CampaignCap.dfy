/**
 The cap of a campaign. A claim compares the counter with the cap it read, so an edit of the cap can
 be overtaken by claims already under way - exactly by those that can still reserve and have read a
 higher limit. Short of such an edit the cap holds in every interleaving.
*/
module CampaignCap {
  import opened Common
  import opened Ledger
  import opened LedgerProperties
  import opened Campaigns
  import opened CampaignBudget
  import opened CampaignResults

  // ---------------------------------------------------------------------------------------
  // Which caps are safe
  // ---------------------------------------------------------------------------------------

  /** The claim is past its first read, and no earlier grant stands in its way to a reservation. */
  predicate CanStillReserve(s: State, run: Run, c: CampaignId) {
    run.campaign == c && (run.phase == Reserve || (run.phase == ReadGrant && (c, run.user) !in s.grants))
  }

  predicate NoHigherLimit(s: State, c: CampaignId, cap: nat) {
    forall r | r in s.runs && CanStillReserve(s, s.runs[r], c) :: Limit(s.runs[r]) <= cap
  }

  /**
   The state at the moment of an edit that sets the cap of `c` to `cap`. The limits that claims under
   way have read are known to these claims alone; what an operator can see to be enough is a cap that
   is lifted or not lowered, or a campaign that has ended with no more than `cap` issued.
  */
  predicate SafeCap(s: State, c: CampaignId, cap: nat)
    requires c in s.campaigns
  {
    s.campaigns[c].issued <= cap && (s.campaigns[c].status == Ended || NoHigherLimit(s, c, cap))
  }

  ghost predicate NoEdit(events: seq<Event>, c: CampaignId) { forall cap :: SetCap(c, cap) !in events }

  predicate HasCap(s: State, c: CampaignId, cap: nat) { c in s.campaigns && s.campaigns[c].cap == Some(cap) }

  predicate StaysWithin(s: State, c: CampaignId, cap: nat) { c in s.campaigns && s.campaigns[c].issued <= cap }

  // ---------------------------------------------------------------------------------------
  // A safe cap holds
  // ---------------------------------------------------------------------------------------

  /** Who can still reserve could before, or has just read the cap in force. */
  lemma ReservingFollows(s: State, r: nat, c: CampaignId, cap: nat, q: nat)
    requires HasCap(s, c, cap) && r in s.runs && NoHigherLimit(s, c, cap)
    requires q in AdvanceRun(s, r).runs && CanStillReserve(AdvanceRun(s, r), AdvanceRun(s, r).runs[q], c)
    ensures Limit(AdvanceRun(s, r).runs[q]) <= cap
  {
    if q == r && s.runs[r].phase != ReadCampaign {
      assert CanStillReserve(s, s.runs[r], c);
    } else if q != r {
      assert CanStillReserve(s, s.runs[q], c);
    }
  }

  lemma AdvanceKeepsSafeCap(s: State, r: nat, c: CampaignId, cap: nat)
    requires HasCap(s, c, cap) && SafeCap(s, c, cap) && r in s.runs
    ensures HasCap(AdvanceRun(s, r), c, cap) && SafeCap(AdvanceRun(s, r), c, cap)
  {
    var s', run := AdvanceRun(s, r), s.runs[r];
    if run.campaign == c && run.phase == Reserve && Reply(s, run) {
      assert CanStillReserve(s, run, c);
    }
    if s.campaigns[c].status != Ended {
      forall q | q in s'.runs && CanStillReserve(s', s'.runs[q], c) ensures Limit(s'.runs[q]) <= cap {
        ReservingFollows(s, r, c, cap, q);
      }
    }
  }

  lemma NonEditKeepsSafeCap(s: State, e: Event, c: CampaignId, cap: nat)
    requires HasCap(s, c, cap) && SafeCap(s, c, cap) && !(e.SetCap? && e.campaign == c)
    ensures HasCap(Next(s, e), c, cap) && SafeCap(Next(s, e), c, cap)
  {
    if e.Advance? && e.run in s.runs {
      AdvanceKeepsSafeCap(s, e.run, c, cap);
    } else {
      var s' := Next(s, e);
      assert forall q | q in s'.runs && CanStillReserve(s', s'.runs[q], c) :: q in s.runs && s'.runs[q] == s.runs[q];
      assert forall q | q in s'.runs && CanStillReserve(s', s'.runs[q], c) :: CanStillReserve(s, s.runs[q], c);
    }
  }

  lemma {:induction false} SafeCapHolds(s: State, events: seq<Event>, c: CampaignId, cap: nat)
    requires HasCap(s, c, cap) && SafeCap(s, c, cap) && NoEdit(events, c)
    ensures HasCap(Campaigns.Execute(s, events), c, cap) && SafeCap(Campaigns.Execute(s, events), c, cap)
  {
    if events != [] {
      var front, last := events[..|events| - 1], events[|events| - 1];
      assert last in events && forall e | e in front :: e in events;
      SafeCapHolds(s, front, c, cap);
      NonEditKeepsSafeCap(Campaigns.Execute(s, front), last, c, cap);
    }
  }

  // ---------------------------------------------------------------------------------------
  // An unsafe cap can be passed
  // ---------------------------------------------------------------------------------------

  /** A new claim by somebody not yet granted takes one more slot of an active campaign below its cap. */
  lemma OneMoreSlot(s: State, c: CampaignId, cap: nat, user: UserId, q: nat) returns (events: seq<Event>)
    requires HasCap(s, c, cap) && s.campaigns[c].status == Active && s.campaigns[c].issued < cap
    requires (c, user) !in s.grants && q !in s.runs
    ensures NoEdit(events, c)
    ensures var s' := Campaigns.Execute(s, events);
      s'.campaigns == AddIssued(s.campaigns, c, 1) && s'.grants == s.grants &&
      forall r | r in s.runs :: r in s'.runs && s'.runs[r] == s.runs[r]
  {
    events := [Begin(q, c, user), Advance(q), Advance(q)];
    NewClaimReachesReservation(s, c, cap, user, q, events);
    var s1 := Campaigns.Execute(s, events);
    ExecuteOneMore(s, events, Advance(q));
    assert Reply(s1, s1.runs[q]);
    events := events + [Advance(q)];
  }

  lemma NewClaimReachesReservation(s: State, c: CampaignId, cap: nat, user: UserId, q: nat, events: seq<Event>)
    requires HasCap(s, c, cap) && (c, user) !in s.grants && q !in s.runs
    requires events == [Begin(q, c, user), Advance(q), Advance(q)]
    ensures Campaigns.Execute(s, events) ==
            s.(runs := s.runs[q := Run(c, user, Reserve, Some(cap), s.campaigns[c].tokens, false)])
  {
    var run := Run(c, user, ReadCampaign, None, 0, false);
    var read := Run(c, user, ReadGrant, Some(cap), s.campaigns[c].tokens, false);
    ExecuteOneMore(s, [], Begin(q, c, user));
    assert [] + [Begin(q, c, user)] == events[..1];
    assert Campaigns.Execute(s, events[..1]) == s.(runs := s.runs[q := run]);
    ReadingStep(s, q, run);
    ExecuteOneMore(s, events[..1], Advance(q));
    assert events[..1] + [Advance(q)] == events[..2];
    ReadingStep(s, q, read);
    ExecuteOneMore(s, events[..2], Advance(q));
    assert events[..2] + [Advance(q)] == events;
  }

  /** A reading statement changes nothing but the claim itself. */
  lemma ReadingStep(s: State, q: nat, run: Run)
    requires run.phase == ReadCampaign || run.phase == ReadGrant
    ensures Next(s.(runs := s.runs[q := run]), Advance(q)) ==
            s.(runs := s.runs[q := NextRun(WithTerms(s, run), Reply(s, run))])
  {
    var s1 := s.(runs := s.runs[q := run]);
    assert WithTerms(s1, run) == WithTerms(s, run) && Reply(s1, run) == Reply(s, run);
    assert s1.runs[q := NextRun(WithTerms(s, run), Reply(s, run))] ==
           s.runs[q := NextRun(WithTerms(s, run), Reply(s, run))];
  }

  lemma NoEditConcat(a: seq<Event>, b: seq<Event>, c: CampaignId)
    requires NoEdit(a, c) && NoEdit(b, c)
    ensures NoEdit(a + b, c)
  {
  }

  /** New claims can fill an active campaign up to its cap, whatever the others are at. */
  lemma {:induction false} FillsUp(s: State, c: CampaignId, cap: nat, user: UserId, r: nat) returns (events: seq<Event>)
    requires HasCap(s, c, cap) && s.campaigns[c].status == Active && s.campaigns[c].issued <= cap
    requires (c, user) !in s.grants && r in s.runs
    ensures NoEdit(events, c)
    ensures var s' := Campaigns.Execute(s, events);
      HasCap(s', c, cap) && s'.campaigns[c].status == Active && s'.campaigns[c].issued == cap &&
      r in s'.runs && s'.runs[r] == s.runs[r]
    decreases cap - s.campaigns[c].issued
  {
    if s.campaigns[c].issued == cap {
      events := [];
    } else {
      var q := SomeIdIsUnused(s.runs.Keys, 0);
      assert q !in s.runs.Keys;
      var first := OneMoreSlot(s, c, cap, user, q);
      var rest := FillsUp(Campaigns.Execute(s, first), c, cap, user, r);
      ExecuteConcat(s, first, rest);
      NoEditConcat(first, rest, c);
      events := first + rest;
    }
  }

  /** A claim at its reservation with a higher limit takes the slot beyond the cap. */
  lemma PassesTheCap(s: State, c: CampaignId, cap: nat, r: nat) returns (events: seq<Event>)
    requires HasCap(s, c, cap) && s.campaigns[c].status == Active && s.campaigns[c].issued <= cap
    requires r in s.runs && s.runs[r].campaign == c && s.runs[r].phase == Reserve && Limit(s.runs[r]) > cap
    ensures NoEdit(events, c) && !StaysWithin(Campaigns.Execute(s, events), c, cap)
  {
    var user := SomeIdIsUnused(Granted(s, c), 0);
    assert (c, user) in s.grants ==> user in Granted(s, c);
    var full := FillsUp(s, c, cap, user, r);
    ExecuteOneMore(s, full, Advance(r));
    NoEditConcat(full, [Advance(r)], c);
    events := full + [Advance(r)];
  }

  /** If a cap is not safe, some continuation passes it. */
  lemma UnsafeCapCanBePassed(s: State, c: CampaignId, cap: nat) returns (events: seq<Event>)
    requires HasCap(s, c, cap) && !SafeCap(s, c, cap)
    ensures NoEdit(events, c) && !StaysWithin(Campaigns.Execute(s, events), c, cap)
  {
    if s.campaigns[c].issued > cap {
      events := [];
    } else {
      var r :| r in s.runs && CanStillReserve(s, s.runs[r], c) && Limit(s.runs[r]) > cap;
      var first := [SetStatus(c, Active)];
      ExecuteOneMore(s, [], SetStatus(c, Active));
      assert [] + first == first;
      if s.runs[r].phase == ReadGrant {
        ExecuteOneMore(s, first, Advance(r));
        first := first + [Advance(r)];
      }
      var rest := PassesTheCap(Campaigns.Execute(s, first), c, cap, r);
      ExecuteConcat(s, first, rest);
      NoEditConcat(first, rest, c);
      events := first + rest;
    }
  }

  // ---------------------------------------------------------------------------------------
  // Main results
  // ---------------------------------------------------------------------------------------

  /**
   Exactly when an edit of the cap holds. From any state, whatever happens after the cap of `c` has
   been set to `cap`, the counter stays within it until the next edit, if and only if at the moment
   of the edit no more than that was issued and - unless the campaign has ended - no claim that can
   still reserve has read a higher limit.
  */
  lemma EditedCapHoldsIffSafe(s: State, c: CampaignId, cap: nat)
    requires c in s.campaigns
    ensures (forall more | NoEdit(more, c) ::
               StaysWithin(Campaigns.Execute(Next(s, SetCap(c, Some(cap))), more), c, cap)) <==>
            SafeCap(s, c, cap)
  {
    var s' := Next(s, SetCap(c, Some(cap)));
    assert SafeCap(s', c, cap) <==> SafeCap(s, c, cap);
    if SafeCap(s, c, cap) {
      forall more | NoEdit(more, c) ensures StaysWithin(Campaigns.Execute(s', more), c, cap) {
        SafeCapHolds(s', more, c, cap);
      }
    } else {
      var more := UnsafeCapCanBePassed(s', c, cap);
      assert !StaysWithin(Campaigns.Execute(s', more), c, cap);
    }
  }

  /** An edit that lifts or raises the cap, or sets a safe one; and anything that is no edit of `c`. */
  predicate IsHarmless(s: State, e: Event, c: CampaignId) {
    e.SetCap? && e.campaign == c && e.cap.Some? && c in s.campaigns ==>
      (s.campaigns[c].cap.Some? && s.campaigns[c].cap.value <= e.cap.value) || SafeCap(s, c, e.cap.value)
  }

  ghost predicate OnlyHarmlessEdits(events: seq<Event>, c: CampaignId) {
    forall i: nat | i < |events| :: IsHarmless(Campaigns.Execute(NOTHING, events[..i]), events[i], c)
  }

  lemma HarmlessStep(s: State, e: Event, c: CampaignId)
    requires Inv(s) && IsHarmless(s, e, c)
    requires c in s.campaigns && s.campaigns[c].cap.Some? ==> SafeCap(s, c, s.campaigns[c].cap.value)
    ensures c in Next(s, e).campaigns && Next(s, e).campaigns[c].cap.Some? ==>
              SafeCap(Next(s, e), c, Next(s, e).campaigns[c].cap.value)
  {
    if c !in s.campaigns {
      assert forall r | r in s.runs :: TermsOk(s, s.runs[r]);
    } else if e.SetCap? && e.campaign == c {
      assert Next(s, e).campaigns[c].issued == s.campaigns[c].issued;
    } else if s.campaigns[c].cap.Some? {
      NonEditKeepsSafeCap(s, e, c, s.campaigns[c].cap.value);
    } else {
      assert c in Next(s, e).campaigns && Next(s, e).campaigns[c].cap.None?;
    }
  }

  lemma {:induction false} CapIsSafeAlways(events: seq<Event>, c: CampaignId)
    requires OnlyHarmlessEdits(events, c)
    ensures var s := Campaigns.Execute(NOTHING, events);
      c in s.campaigns && s.campaigns[c].cap.Some? ==> SafeCap(s, c, s.campaigns[c].cap.value)
  {
    if events != [] {
      var n := |events| - 1;
      var front := events[..n];
      forall i: nat | i < n ensures IsHarmless(Campaigns.Execute(NOTHING, front[..i]), front[i], c) {
        assert front[..i] == events[..i] && IsHarmless(Campaigns.Execute(NOTHING, events[..i]), events[i], c);
      }
      CapIsSafeAlways(front, c);
      InvAlways(front);
      assert IsHarmless(Campaigns.Execute(NOTHING, events[..n]), events[n], c);
      HarmlessStep(Campaigns.Execute(NOTHING, front), events[n], c);
    }
  }

  /** The cap in force is never exceeded, in any run in which each edit was harmless when it was made. */
  lemma CapIsNeverExceeded(events: seq<Event>, c: CampaignId)
    requires OnlyHarmlessEdits(events, c)
    requires c in Campaigns.Execute(NOTHING, events).campaigns
    requires Campaigns.Execute(NOTHING, events).campaigns[c].cap.Some?
    ensures var s := Campaigns.Execute(NOTHING, events);
      |Granted(s, c)| <= s.campaigns[c].issued <= s.campaigns[c].cap.value
  {
    CapIsSafeAlways(events, c);
    SlotsAreAccountedFor(events, c);
  }

  /** In such runs a campaign never mints more than its cap times its amount. */
  lemma BudgetIsNeverExceeded(events: seq<Event>, c: CampaignId)
    requires OnlyHarmlessEdits(events, c)
    requires c in Campaigns.Execute(NOTHING, events).campaigns
    requires Campaigns.Execute(NOTHING, events).campaigns[c].cap.Some?
    ensures var s := Campaigns.Execute(NOTHING, events);
      Sum(s.books.ledger, OfCampaign(c)) <= s.campaigns[c].tokens * s.campaigns[c].cap.value
  {
    MintedPerGrant(events, c);
    CapIsNeverExceeded(events, c);
    var s := Campaigns.Execute(NOTHING, events);
    TimesMonotone(s.campaigns[c].tokens, |Granted(s, c)|, s.campaigns[c].cap.value);
  }

  /**
   The shortest overtaking: a campaign with one slot, a claim that has read this and found no
   grant, the cap lowered to none - and the claim takes its slot all the same.
  */
  lemma LoweredCapIsNotSeen() returns (events: seq<Event>)
    ensures events == [Create(1, 5, Some(1)), SetStatus(1, Active), Begin(1, 1, 7), Advance(1), Advance(1),
                       SetCap(1, Some(0)), Advance(1)]
    ensures var s := Campaigns.Execute(NOTHING, events); HasCap(s, 1, 0) && s.campaigns[1].issued == 1
  {
    var campaign, run := Campaign(5, Some(1), Active, 0, Some(1)), Run(1, 7, Reserve, Some(1), 5, false);
    events := [Create(1, 5, Some(1)), SetStatus(1, Active), Begin(1, 1, 7), Advance(1), Advance(1)];
    ReachesReservation(events);
    var s := Campaigns.Execute(NOTHING, events);
    assert s.runs[1] == run && s.campaigns[1] == campaign;
    ExecuteOneMore(NOTHING, events, SetCap(1, Some(0)));
    events := events + [SetCap(1, Some(0))];
    ExecuteOneMore(NOTHING, events, Advance(1));
    events := events + [Advance(1)];
  }

  lemma ReachesReservation(events: seq<Event>)
    requires events == [Create(1, 5, Some(1)), SetStatus(1, Active), Begin(1, 1, 7), Advance(1), Advance(1)]
    ensures var s := Campaigns.Execute(NOTHING, events);
      s.campaigns == map[1 := Campaign(5, Some(1), Active, 0, Some(1))] && s.grants == {} &&
      s.runs == map[1 := Run(1, 7, Reserve, Some(1), 5, false)]
  {
    var open := NOTHING.(campaigns := map[1 := Campaign(5, Some(1), Active, 0, Some(1))]);
    assert events[..2] == [Create(1, 5, Some(1))] + [SetStatus(1, Active)];
    ExecuteOneMore(NOTHING, [], Create(1, 5, Some(1)));
    ExecuteOneMore(NOTHING, [Create(1, 5, Some(1))], SetStatus(1, Active));
    assert Campaigns.Execute(NOTHING, events[..2]) == open;
    assert events[..3] == events[..2] + [Begin(1, 1, 7)];
    ExecuteOneMore(NOTHING, events[..2], Begin(1, 1, 7));
    assert Campaigns.Execute(NOTHING, events[..3]).runs == map[1 := Run(1, 7, ReadCampaign, None, 0, false)];
    assert events[..4] == events[..3] + [Advance(1)];
    ExecuteOneMore(NOTHING, events[..3], Advance(1));
    assert Campaigns.Execute(NOTHING, events[..4]).runs == map[1 := Run(1, 7, ReadGrant, Some(1), 5, false)];
    assert events == events[..4] + [Advance(1)];
    ExecuteOneMore(NOTHING, events[..4], Advance(1));
  }
}
