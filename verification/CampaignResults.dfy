/** What the slot accounting means for the users and the ledger. */
module CampaignResults {
  import opened Common
  import opened Ledger
  import opened LedgerProperties
  import opened Campaigns
  import opened CampaignBudget

  // ---------------------------------------------------------------------------------------
  // Slots
  // ---------------------------------------------------------------------------------------

  /**
   Every slot is accounted for. With any number of claims interleaving, failing and crashing, the
   counter is the grants ever made, plus the claims in flight, plus the slots lost; and it never
   exceeds the highest cap the campaign has had.
  */
  lemma SlotsAreAccountedFor(events: seq<Event>, c: CampaignId)
    requires c in Campaigns.Execute(NOTHING, events).campaigns
    ensures var s := Campaigns.Execute(NOTHING, events);
      s.campaigns[c].issued == |Granted(s, c)| + |InFlight(s, c)| + |Lost(s, c)| &&
      Below(s.campaigns[c].issued, s.campaigns[c].ceiling)
  {
    var s := Campaigns.Execute(NOTHING, events);
    InvAlways(events);
    assert SlotsOk(s, c);
    assert Reserved(s, c) == InFlight(s, c) + Lost(s, c) && InFlight(s, c) !! Lost(s, c);
  }

  /** The floor of the release never takes effect: a claim that hands a slot back finds it counted. */
  lemma ReleaseFloorIsDead(events: seq<Event>, r: nat)
    requires r in Campaigns.Execute(NOTHING, events).runs
    requires Campaigns.Execute(NOTHING, events).runs[r].phase == Releasing
    ensures var s := Campaigns.Execute(NOTHING, events);
      s.runs[r].campaign in s.campaigns && s.campaigns[s.runs[r].campaign].issued > 0
  {
    InvAlways(events);
    ReleasingMeansIssued(Campaigns.Execute(NOTHING, events), r);
  }

  // ---------------------------------------------------------------------------------------
  // The ledger
  // ---------------------------------------------------------------------------------------

  /** How many ledger rows pay campaign `c` to `u`. */
  function Payments(rows: seq<Row>, c: CampaignId, u: UserId): nat {
    if rows == [] then 0
    else Payments(rows[..|rows| - 1], c, u) +
         (if rows[|rows| - 1].campaign == Some(c) && rows[|rows| - 1].user == u then 1 else 0)
  }

  lemma PaymentsOneMore(rows: seq<Row>, r: Row, c: CampaignId, u: UserId)
    ensures Payments(rows + [r], c, u) ==
            Payments(rows, c, u) + (if r.campaign == Some(c) && r.user == u then 1 else 0)
  {
    assert (rows + [r])[..|rows|] == rows;
  }

  function TokensOf(s: State, c: CampaignId): nat { if c in s.campaigns then s.campaigns[c].tokens else 0 }

  /** Each grant is one row of exactly the campaign's amount, and there are no other rows. */
  ghost predicate PaidOnce(s: State) {
    (forall c: CampaignId, u: UserId :: Payments(s.books.ledger, c, u) == (if (c, u) in s.grants then 1 else 0)) &&
    (forall c :: Sum(s.books.ledger, OfCampaign(c)) == TokensOf(s, c) * |Granted(s, c)|)
  }

  /** Rows without a campaign pay no campaign. */
  lemma OtherRow(rows: seq<Row>, r: Row)
    requires r.campaign == None
    ensures forall c: CampaignId, u: UserId :: Payments(rows + [r], c, u) == Payments(rows, c, u)
    ensures forall c :: Sum(rows + [r], OfCampaign(c)) == Sum(rows, OfCampaign(c))
  {
    forall c: CampaignId, u: UserId ensures Payments(rows + [r], c, u) == Payments(rows, c, u) {
      PaymentsOneMore(rows, r, c, u);
    }
    forall c ensures Sum(rows + [r], OfCampaign(c)) == Sum(rows, OfCampaign(c)) {
      SumOneMore(rows, r, OfCampaign(c));
    }
  }

  lemma OtherOpsPayNoCampaign(b: Books, op: Op)
    requires !op.DoGrant?
    ensures forall c: CampaignId, u: UserId :: Payments(Apply(b, op).ledger, c, u) == Payments(b.ledger, c, u)
    ensures forall c :: Sum(Apply(b, op).ledger, OfCampaign(c)) == Sum(b.ledger, OfCampaign(c))
  {
    var b' := Apply(b, op);
    match op
    case DoTip(from, to, tokens) =>
      if TipError(b, from, to, tokens).None? {
        var paid := DebitAndRecord(b, from, tokens, TipSent);
        OtherRow(b.ledger, paid.ledger[|b.ledger|]);
        OtherRow(paid.ledger, b'.ledger[|paid.ledger|]);
      }
    case DoFulfil(ref, event) => if Fulfils(b, ref, event) { OtherRow(b.ledger, b'.ledger[|b.ledger|]); }
    case DoAdjust(u, delta, note) =>
      if AdjustError(b, u, delta, note).None? { OtherRow(b.ledger, b'.ledger[|b.ledger|]); }
    case DoRead(_) =>
    case DoOrder(_, _, _) =>
  }

  lemma GrantPays(s: State, r: nat)
    requires Inv(s) && PaidOnce(s) && r in s.runs && Grants(s, s.runs[r])
    ensures PaidOnce(AdvanceRun(s, r))
  {
    var s', run := AdvanceRun(s, r), s.runs[r];
    assert TermsOk(s, run);
    GrantIsPaid(s, s', run.campaign, run.user);
  }

  /** One more grant with one more row of the campaign's amount. */
  lemma GrantIsPaid(s: State, s': State, c: CampaignId, u: UserId)
    requires PaidOnce(s) && (c, u) !in s.grants && s'.grants == s.grants + {(c, u)} && s'.campaigns == s.campaigns
    requires s'.books == Grant(s.books, c, u, TokensOf(s, c))
    ensures PaidOnce(s')
  {
    OneGrantMore(s, s', c, u);
    var row := Row(u, TokensOf(s, c), Promo, BalanceOf(s'.books, u), None, Some(c));
    assert s'.books.ledger == s.books.ledger + [row];
    forall d: CampaignId, v: UserId
      ensures Payments(s'.books.ledger, d, v) == (if (d, v) in s'.grants then 1 else 0)
    {
      PaymentsOneMore(s.books.ledger, row, d, v);
    }
    forall d ensures Sum(s'.books.ledger, OfCampaign(d)) == TokensOf(s', d) * |Granted(s', d)| {
      SumOneMore(s.books.ledger, row, OfCampaign(d));
      if d == c {
        TimesOneMore(TokensOf(s, c), |Granted(s, c)|);
      }
    }
  }

  /** A step that grants nothing and keeps amounts keeps what has been paid. */
  lemma SamePayments(s: State, s': State)
    requires Inv(s) && PaidOnce(s) && s'.grants == s.grants
    requires forall c: CampaignId, u: UserId :: Payments(s'.books.ledger, c, u) == Payments(s.books.ledger, c, u)
    requires forall c :: Sum(s'.books.ledger, OfCampaign(c)) == Sum(s.books.ledger, OfCampaign(c))
    requires forall c | c in s.campaigns :: c in s'.campaigns && s'.campaigns[c].tokens == s.campaigns[c].tokens
    ensures PaidOnce(s')
  {
    forall c ensures Sum(s'.books.ledger, OfCampaign(c)) == TokensOf(s', c) * |Granted(s', c)| {
      assert Granted(s', c) == Granted(s, c);
      if c !in s.campaigns {
        assert Granted(s, c) == {};
        assert Sum(s.books.ledger, OfCampaign(c)) == 0;
      }
    }
  }

  lemma PaidOnceStep(s: State, e: Event)
    requires Inv(s) && PaidOnce(s)
    ensures PaidOnce(Next(s, e))
  {
    match e
    case Advance(r) =>
      if r in s.runs && Grants(s, s.runs[r]) {
        GrantPays(s, r);
      } else {
        SamePayments(s, Next(s, e));
      }
    case Other(op) =>
      if !op.DoGrant? {
        OtherOpsPayNoCampaign(s.books, op);
        SamePayments(s, Next(s, e));
      }
    case _ => SamePayments(s, Next(s, e));
  }

  lemma {:induction false} PaidOnceAlways(events: seq<Event>)
    ensures PaidOnce(Campaigns.Execute(NOTHING, events))
  {
    if events != [] {
      var front := events[..|events| - 1];
      PaidOnceAlways(front);
      InvAlways(front);
      PaidOnceStep(Campaigns.Execute(NOTHING, front), events[|events| - 1]);
    } else {
      assert forall c :: Granted(NOTHING, c) == {};
    }
  }

  /** Nobody is paid a campaign twice, and nobody is paid without a grant. */
  lemma NobodyIsPaidTwice(events: seq<Event>, c: CampaignId, u: UserId)
    ensures var s := Campaigns.Execute(NOTHING, events);
      Payments(s.books.ledger, c, u) == (if (c, u) in s.grants then 1 else 0)
  {
    PaidOnceAlways(events);
  }

  /** The tokens a campaign mints are its amount, once per grant. */
  lemma MintedPerGrant(events: seq<Event>, c: CampaignId)
    ensures var s := Campaigns.Execute(NOTHING, events);
      Sum(s.books.ledger, OfCampaign(c)) == TokensOf(s, c) * |Granted(s, c)|
  {
    PaidOnceAlways(events);
  }

  /** Interleaved claims are ordinary ledger operations: replay and conservation hold throughout. */
  lemma {:induction false} BooksStayRight(events: seq<Event>)
    ensures BooksOk(Campaigns.Execute(NOTHING, events).books)
    ensures ConservedWithTips(Campaigns.Execute(NOTHING, events).books)
  {
    if events == [] {
      LedgerReplay([]);
    } else {
      var front, last := events[..|events| - 1], events[|events| - 1];
      BooksStayRight(front);
      var s := Campaigns.Execute(NOTHING, front);
      if last.Advance? && last.run in s.runs && Grants(s, s.runs[last.run]) {
        var run := s.runs[last.run];
        ApplyReplays(s.books, DoGrant(run.campaign, run.user, run.amount));
        ApplyConserves(s.books, DoGrant(run.campaign, run.user, run.amount));
      } else if last.Other? && !last.op.DoGrant? {
        ApplyReplays(s.books, last.op);
        ApplyConserves(s.books, last.op);
      }
    }
  }

  // ---------------------------------------------------------------------------------------
  // Ending a campaign
  // ---------------------------------------------------------------------------------------

  /** The users whose claim of `c` already holds a reservation that can still turn into a grant. */
  function AboutToBeGranted(s: State, c: CampaignId): set<UserId> {
    set r | r in s.runs && s.runs[r].campaign == c && s.runs[r].phase == Granting :: s.runs[r].user
  }

  ghost predicate HasEnded(s: State, c: CampaignId) { c in s.campaigns && s.campaigns[c].status == Ended }

  lemma EndedStep(s: State, e: Event, c: CampaignId)
    requires HasEnded(s, c)
    ensures HasEnded(Next(s, e), c)
    ensures Granted(Next(s, e), c) + AboutToBeGranted(Next(s, e), c) <= Granted(s, c) + AboutToBeGranted(s, c)
  {
    var s' := Next(s, e);
    forall u | u in AboutToBeGranted(s', c) ensures u in AboutToBeGranted(s, c) {
      var r :| r in s'.runs && s'.runs[r].campaign == c && s'.runs[r].phase == Granting && s'.runs[r].user == u;
      assert r in s.runs && s.runs[r].phase == Granting && s.runs[r].campaign == c && s.runs[r].user == u;
    }
    forall u | u in Granted(s', c) ensures u in Granted(s, c) + AboutToBeGranted(s, c) {
      assert (c, u) in s'.grants;
      if (c, u) !in s.grants {
        assert e.Advance? && s.runs[e.run].campaign == c && s.runs[e.run].user == u;
      }
    }
  }

  /** ENDED is final, and then only claims that already held a slot are still granted. */
  lemma {:induction false} EndedCampaignsOnlyComplete(s: State, events: seq<Event>, c: CampaignId)
    requires HasEnded(s, c)
    ensures HasEnded(Campaigns.Execute(s, events), c)
    ensures Granted(Campaigns.Execute(s, events), c) + AboutToBeGranted(Campaigns.Execute(s, events), c) <=
            Granted(s, c) + AboutToBeGranted(s, c)
  {
    if events != [] {
      EndedCampaignsOnlyComplete(s, events[..|events| - 1], c);
      EndedStep(Campaigns.Execute(s, events[..|events| - 1]), events[|events| - 1], c);
    }
  }
}
