/**
 The slots of a campaign are accounted for to the last one: the counter is the grants made and the
 reservations held, whatever claims interleave, fail or crash.
*/
module CampaignBudget {
  import opened Common
  import opened Ledger
  import opened Campaigns

  // ---------------------------------------------------------------------------------------
  // Slots
  // ---------------------------------------------------------------------------------------

  /** Who has been granted campaign `c`. */
  function Granted(s: State, c: CampaignId): set<UserId> { set g | g in s.grants && g.0 == c :: g.1 }

  /** Claims of `c` holding a reserved slot: in flight, or lost to a crash or a failed release. */
  function Reserved(s: State, c: CampaignId): set<nat> {
    set r | r in s.runs && s.runs[r].campaign == c && HoldsSlot(s.runs[r])
  }

  function InFlight(s: State, c: CampaignId): set<nat> {
    set r | r in s.runs && s.runs[r].campaign == c && (s.runs[r].phase == Granting || s.runs[r].phase == Releasing)
  }

  function Lost(s: State, c: CampaignId): set<nat> {
    set r | r in s.runs && s.runs[r].campaign == c && s.runs[r].phase == SlotLost
  }

  predicate Below(n: int, cap: Option<nat>) { cap.None? || n <= cap.value }

  ghost predicate SlotsOk(s: State, c: CampaignId)
    requires c in s.campaigns
  {
    s.campaigns[c].issued == |Granted(s, c)| + |Reserved(s, c)| &&
    Below(s.campaigns[c].issued, s.campaigns[c].ceiling) &&
    (s.campaigns[c].cap.Some? ==> Below(s.campaigns[c].cap.value, s.campaigns[c].ceiling)) &&
    (s.campaigns[c].cap.None? ==> s.campaigns[c].ceiling.None?)
  }

  /** Past the first read, a claim knows the amount, and a cap the campaign once had. */
  ghost predicate TermsOk(s: State, run: Run) {
    run.phase != ReadCampaign && run.phase != Finished && run.phase != SlotLost ==>
      run.campaign in s.campaigns && run.amount == s.campaigns[run.campaign].tokens &&
      (run.cap.Some? ==> Below(run.cap.value, s.campaigns[run.campaign].ceiling)) &&
      (run.cap.None? ==> s.campaigns[run.campaign].ceiling.None?)
  }

  ghost predicate Inv(s: State) {
    (forall c | c in s.campaigns :: SlotsOk(s, c)) &&
    (forall r | r in s.runs :: TermsOk(s, s.runs[r])) &&
    (forall c | c !in s.campaigns :: Granted(s, c) == {} && Reserved(s, c) == {})
  }

  /** The reservations of `c` after run `r` alone has changed. */
  function ReservedAfter(s: State, c: CampaignId, r: nat, run: Run): set<nat> {
    if run.campaign == c && HoldsSlot(run) then Reserved(s, c) + {r} else Reserved(s, c) - {r}
  }

  lemma OneRunChanges(s: State, s': State, r: nat, run: Run)
    requires s'.runs == s.runs[r := run]
    ensures forall c :: Reserved(s', c) == ReservedAfter(s, c, r, run)
  {
    forall c ensures Reserved(s', c) == ReservedAfter(s, c, r, run) {
      assert forall q :: q in Reserved(s', c) <==> q in ReservedAfter(s, c, r, run);
    }
  }

  lemma OneGrantMore(s: State, s': State, c: CampaignId, u: UserId)
    requires s'.grants == s.grants + {(c, u)} && (c, u) !in s.grants
    ensures Granted(s', c) == Granted(s, c) + {u} && u !in Granted(s, c)
    ensures forall d | d != c :: Granted(s', d) == Granted(s, d)
  {
    assert forall v :: v in Granted(s', c) <==> (c, v) in s'.grants;
    assert forall v :: v in Granted(s, c) <==> (c, v) in s.grants;
    forall d | d != c ensures Granted(s', d) == Granted(s, d) {
      assert forall v :: v in Granted(s', d) <==> (d, v) in s'.grants;
      assert forall v :: v in Granted(s, d) <==> (d, v) in s.grants;
    }
  }

  /** Terms once read stay right while tokens and ceilings do. */
  lemma TermsStay(s: State, s': State, r: nat)
    requires forall q | q in s.runs :: TermsOk(s, s.runs[q])
    requires r in s'.runs && s'.runs == s.runs[r := s'.runs[r]] && TermsOk(s, s'.runs[r])
    requires forall c | c in s.campaigns :: c in s'.campaigns && s'.campaigns[c].tokens == s.campaigns[c].tokens &&
                                            s'.campaigns[c].ceiling == s.campaigns[c].ceiling
    ensures forall q | q in s'.runs :: TermsOk(s', s'.runs[q])
  {
    forall q | q in s'.runs ensures TermsOk(s', s'.runs[q]) {
      if q != r { assert TermsOk(s, s.runs[q]); }
    }
  }

  /** A run that keeps whatever slot it had leaves the accounts of every campaign alone. */
  lemma SameSlots(s: State, s': State, r: nat, run: Run)
    requires Inv(s) && r in s.runs && s'.runs == s.runs[r := run]
    requires s'.campaigns == s.campaigns && s'.grants == s.grants
    requires run.campaign == s.runs[r].campaign && HoldsSlot(run) == HoldsSlot(s.runs[r]) && TermsOk(s, run)
    ensures Inv(s')
  {
    OneRunChanges(s, s', r, run);
    forall c ensures Reserved(s', c) == Reserved(s, c) && Granted(s', c) == Granted(s, c) {}
    forall c | c in s'.campaigns ensures SlotsOk(s', c) { assert SlotsOk(s, c); }
    TermsStay(s, s', r);
  }

  function Slots(run: Run): nat { if HoldsSlot(run) then 1 else 0 }

  lemma ReservedCount(s: State, s': State, c: CampaignId, r: nat)
    requires r in s.runs && r in s'.runs && s'.runs == s.runs[r := s'.runs[r]]
    requires s'.runs[r].campaign == s.runs[r].campaign
    ensures |Reserved(s', c)| ==
            |Reserved(s, c)| + (if c == s.runs[r].campaign then Slots(s'.runs[r]) - Slots(s.runs[r]) else 0)
  {
    OneRunChanges(s, s', r, s'.runs[r]);
    assert r in Reserved(s, c) <==> c == s.runs[r].campaign && HoldsSlot(s.runs[r]);
  }

  /** Taking or handing back a slot moves the counter with the reservations. */
  lemma SlotMoves(s: State, s': State, r: nat)
    requires Inv(s) && r in s.runs && r in s'.runs && s'.runs == s.runs[r := s'.runs[r]] && s'.grants == s.grants
    requires var c := s.runs[r].campaign;
      s'.runs[r].campaign == c && c in s.campaigns && TermsOk(s, s'.runs[r]) &&
      s'.campaigns == AddIssued(s.campaigns, c, Slots(s'.runs[r]) - Slots(s.runs[r])) &&
      Below(s'.campaigns[c].issued, s.campaigns[c].ceiling)
    ensures Inv(s')
  {
    forall c ensures Granted(s', c) == Granted(s, c) {}
    forall c | c in s'.campaigns ensures SlotsOk(s', c) {
      assert SlotsOk(s, c);
      ReservedCount(s, s', c, r);
    }
    forall c | c !in s'.campaigns ensures Granted(s', c) == {} && Reserved(s', c) == {} {
      ReservedCount(s, s', c, r);
    }
    TermsStay(s, s', r);
  }

  lemma ReserveKeeps(s: State, r: nat)
    requires Inv(s) && r in s.runs && s.runs[r].phase == Reserve && Reply(s, s.runs[r])
    ensures Inv(AdvanceRun(s, r))
  {
    assert TermsOk(s, s.runs[r]) && SlotsOk(s, s.runs[r].campaign);
    SlotMoves(s, AdvanceRun(s, r), r);
  }

  lemma GrantKeeps(s: State, r: nat)
    requires Inv(s) && r in s.runs && Grants(s, s.runs[r])
    ensures Inv(AdvanceRun(s, r))
  {
    var s', run := AdvanceRun(s, r), s.runs[r];
    assert TermsOk(s, run);
    OneGrantMore(s, s', run.campaign, run.user);
    forall c | c in s'.campaigns ensures SlotsOk(s', c) {
      assert SlotsOk(s, c);
      ReservedCount(s, s', c, r);
    }
    forall c | c !in s'.campaigns ensures Granted(s', c) == {} && Reserved(s', c) == {} {
      ReservedCount(s, s', c, r);
    }
    TermsStay(s, s', r);
  }

  /** A claim that releases holds a slot, so the counter is positive and the floor never matters. */
  lemma ReleasingMeansIssued(s: State, r: nat)
    requires Inv(s) && r in s.runs && s.runs[r].phase == Releasing
    ensures s.runs[r].campaign in s.campaigns && s.campaigns[s.runs[r].campaign].issued > 0
  {
    assert TermsOk(s, s.runs[r]);
    assert r in Reserved(s, s.runs[r].campaign);
    assert SlotsOk(s, s.runs[r].campaign);
  }

  lemma ReleaseKeeps(s: State, r: nat)
    requires Inv(s) && r in s.runs && s.runs[r].phase == Releasing
    ensures Inv(AdvanceRun(s, r))
  {
    ReleasingMeansIssued(s, r);
    assert SlotsOk(s, s.runs[r].campaign);
    SlotMoves(s, AdvanceRun(s, r), r);
  }

  lemma AdvanceKeeps(s: State, r: nat)
    requires Inv(s) && r in s.runs
    ensures Inv(AdvanceRun(s, r))
  {
    var run := s.runs[r];
    assert TermsOk(s, run);
    if run.phase == Reserve && Reply(s, run) {
      ReserveKeeps(s, r);
    } else if Grants(s, run) {
      GrantKeeps(s, r);
    } else if run.phase == Releasing {
      ReleaseKeeps(s, r);
    } else {
      var run' := NextRun(WithTerms(s, run), Reply(s, run));
      if run.campaign in s.campaigns { assert SlotsOk(s, run.campaign); }
      SameSlots(s, AdvanceRun(s, r), r, run');
    }
  }

  /** Changing the terms of a campaign leaves its slots, and raises its ceiling at most. */
  lemma EditKeeps(s: State, s': State, c: CampaignId)
    requires Inv(s) && c in s.campaigns && s'.runs == s.runs && s'.grants == s.grants
    requires c in s'.campaigns && s'.campaigns == s.campaigns[c := s'.campaigns[c]]
    requires s'.campaigns[c].tokens == s.campaigns[c].tokens && s'.campaigns[c].issued == s.campaigns[c].issued
    requires s'.campaigns[c].ceiling == Higher(s.campaigns[c].ceiling, s'.campaigns[c].cap)
    ensures Inv(s')
  {
    assert SlotsOk(s, c);
    forall d ensures Granted(s', d) == Granted(s, d) && Reserved(s', d) == Reserved(s, d) {}
    forall d | d in s'.campaigns ensures SlotsOk(s', d) { assert SlotsOk(s, d); }
    forall r | r in s'.runs ensures TermsOk(s', s'.runs[r]) { assert TermsOk(s, s.runs[r]); }
  }

  lemma CreateKeeps(s: State, c: CampaignId, tokens: nat, cap: Option<nat>)
    requires Inv(s) && c !in s.campaigns
    ensures Inv(Next(s, Create(c, tokens, cap)))
  {
    var s' := Next(s, Create(c, tokens, cap));
    forall d ensures Granted(s', d) == Granted(s, d) && Reserved(s', d) == Reserved(s, d) {}
    forall d | d in s'.campaigns ensures SlotsOk(s', d) {
      if d != c { assert SlotsOk(s, d); }
    }
    forall r | r in s'.runs ensures TermsOk(s', s'.runs[r]) { assert TermsOk(s, s.runs[r]); }
  }

  lemma BeginKeeps(s: State, r: nat, c: CampaignId, u: UserId)
    requires Inv(s) && r !in s.runs
    ensures Inv(Next(s, Begin(r, c, u)))
  {
    var s' := Next(s, Begin(r, c, u));
    OneRunChanges(s, s', r, s'.runs[r]);
    forall d ensures Granted(s', d) == Granted(s, d) && Reserved(s', d) == Reserved(s, d) {}
    forall d | d in s'.campaigns ensures SlotsOk(s', d) { assert SlotsOk(s, d); }
    forall q | q in s'.runs ensures TermsOk(s', s'.runs[q]) {
      if q != r { assert TermsOk(s, s.runs[q]); }
    }
  }

  lemma InvStep(s: State, e: Event)
    requires Inv(s)
    ensures Inv(Next(s, e))
  {
    var s' := Next(s, e);
    match e
    case Begin(r, c, u) => if r !in s.runs { BeginKeeps(s, r, c, u); }
    case Advance(r) => if r in s.runs { AdvanceKeeps(s, r); }
    case GrantFails(r) =>
      if r in s.runs && s.runs[r].phase == Granting {
        assert TermsOk(s, s.runs[r]);
        SameSlots(s, s', r, s.runs[r].(phase := Releasing));
      }
    case ReleaseFails(r) =>
      if r in s.runs && s.runs[r].phase == Releasing { SameSlots(s, s', r, s.runs[r].(phase := SlotLost)); }
    case Crash(r) => if r in s.runs { SameSlots(s, s', r, Crashed(s.runs[r])); }
    case Create(c, tokens, cap) => if c !in s.campaigns { CreateKeeps(s, c, tokens, cap); }
    case SetStatus(c, _) =>
      if c in s.campaigns && s.campaigns[c].status != Ended {
        assert SlotsOk(s, c);
        EditKeeps(s, s', c);
      }
    case SetCap(c, _) => if c in s.campaigns { EditKeeps(s, s', c); }
    case Other(_) => OnlyBooksChange(s, s');
  }

  lemma OnlyBooksChange(s: State, s': State)
    requires Inv(s) && s'.(books := s.books) == s
    ensures Inv(s')
  {
    forall c ensures Granted(s', c) == Granted(s, c) && Reserved(s', c) == Reserved(s, c) {}
    forall c | c in s'.campaigns ensures SlotsOk(s', c) { assert SlotsOk(s, c); }
    forall r | r in s'.runs ensures TermsOk(s', s'.runs[r]) { assert TermsOk(s, s.runs[r]); }
  }

  lemma {:induction false} InvAlways(events: seq<Event>)
    ensures Inv(Campaigns.Execute(NOTHING, events))
  {
    if events != [] {
      InvAlways(events[..|events| - 1]);
      InvStep(Campaigns.Execute(NOTHING, events[..|events| - 1]), events[|events| - 1]);
    }
  }
}
