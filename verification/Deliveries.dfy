/**
 Purchases and their webhooks: a purchase is credited exactly once, and exactly when it does not
 matter in which order, or how often, the payment provider delivers.
 */
module Deliveries {
  import opened Common
  import opened Ledger
  import opened LedgerProperties

  // ---------------------------------------------------------------------------------------
  // Exactly one row per completed purchase
  // ---------------------------------------------------------------------------------------

  function RowsFor(rows: seq<Row>, ref: PurchaseRef): seq<Row> {
    if rows == [] then []
    else RowsFor(rows[..|rows| - 1], ref) + (if rows[|rows| - 1].purchase == Some(ref) then [rows[|rows| - 1]] else [])
  }

  lemma RowsForOneMore(rows: seq<Row>, r: Row, ref: PurchaseRef)
    ensures RowsFor(rows + [r], ref) == RowsFor(rows, ref) + (if r.purchase == Some(ref) then [r] else [])
  {
    assert (rows + [r])[..|rows|] == rows;
  }

  /** A completed purchase has one row, a PURCHASE of its tokens for its user; any other has none. */
  ghost predicate CreditedOnce(b: Books, ref: PurchaseRef) {
    var rows := RowsFor(b.ledger, ref);
    if ref in b.purchases && b.purchases[ref].status == Completed
    then |rows| == 1 && rows[0].kind == Bought && rows[0].user == b.purchases[ref].user &&
         rows[0].delta == b.purchases[ref].tokens
    else rows == []
  }

  lemma RecordKeepsCredited(b: Books, b': Books, r: Row)
    requires forall ref :: CreditedOnce(b, ref)
    requires b'.purchases == b.purchases && b'.ledger == b.ledger + [r] && r.purchase == None
    ensures forall ref :: CreditedOnce(b', ref)
  {
    forall ref ensures CreditedOnce(b', ref) {
      assert CreditedOnce(b, ref);
      RowsForOneMore(b.ledger, r, ref);
    }
  }

  lemma FulfilCreditsOnce(b: Books, ref: PurchaseRef, event: EventId)
    requires forall other :: CreditedOnce(b, other)
    ensures forall other :: CreditedOnce(FulfilPurchase(b, ref, event), other)
  {
    if Fulfils(b, ref, event) {
      var b' := FulfilPurchase(b, ref, event);
      var r := b'.ledger[|b.ledger|];
      assert b'.ledger == b.ledger + [r];
      forall other ensures CreditedOnce(b', other) {
        assert CreditedOnce(b, other);
        RowsForOneMore(b.ledger, r, other);
      }
    }
  }

  lemma TipKeepsCredited(b: Books, from: UserId, to: UserId, tokens: int)
    requires forall ref :: CreditedOnce(b, ref)
    ensures forall ref :: CreditedOnce(SendTip(b, from, to, tokens), ref)
  {
    if TipError(b, from, to, tokens).None? {
      var paid := DebitAndRecord(b, from, tokens, TipSent);
      RecordKeepsCredited(b, paid, paid.ledger[|b.ledger|]);
      var b' := SendTip(b, from, to, tokens);
      RecordKeepsCredited(paid, b', b'.ledger[|paid.ledger|]);
    }
  }

  lemma ApplyKeepsCredited(b: Books, op: Op)
    requires forall ref :: CreditedOnce(b, ref)
    ensures forall ref :: CreditedOnce(Apply(b, op), ref)
  {
    var b' := Apply(b, op);
    match op
    case DoTip(from, to, tokens) => TipKeepsCredited(b, from, to, tokens);
    case DoFulfil(ref, event) => FulfilCreditsOnce(b, ref, event);
    case DoAdjust(u, delta, note) =>
      if AdjustError(b, u, delta, note).None? { RecordKeepsCredited(b, b', b'.ledger[|b.ledger|]); }
    case DoRead(_) =>
      forall ref ensures CreditedOnce(b', ref) { assert CreditedOnce(b, ref); }
    case DoGrant(_, _, _) => RecordKeepsCredited(b, b', b'.ledger[|b.ledger|]);
    case DoOrder(_, _, _) =>
      forall ref ensures CreditedOnce(b', ref) { assert CreditedOnce(b, ref); }
  }

  /** After any sequence of operations a purchase has been credited exactly once or not at all. */
  lemma {:induction false} PurchasesAreCreditedOnce(ops: seq<Op>)
    ensures forall ref :: CreditedOnce(Execute(EMPTY_BOOKS, ops), ref)
  {
    if ops != [] {
      PurchasesAreCreditedOnce(ops[..|ops| - 1]);
      ApplyKeepsCredited(Execute(EMPTY_BOOKS, ops[..|ops| - 1]), ops[|ops| - 1]);
    }
  }

  // ---------------------------------------------------------------------------------------
  // What was bought is what was paid for
  // ---------------------------------------------------------------------------------------

  function PaidTokens(p: Purchase): int { if p.status == Completed then p.tokens else 0 }

  /** The PURCHASE rows are worth exactly the tokens of the completed purchases. */
  ghost predicate BoughtIsPaid(b: Books) {
    Sum(b.ledger, OfKind(Bought)) == Total(b.purchases, PaidTokens)
  }

  lemma FulfilKeepsBought(b: Books, ref: PurchaseRef, event: EventId)
    requires BoughtIsPaid(b)
    ensures BoughtIsPaid(FulfilPurchase(b, ref, event))
  {
    if Fulfils(b, ref, event) {
      var b' := FulfilPurchase(b, ref, event);
      SumOneMore(b.ledger, b'.ledger[|b.ledger|], OfKind(Bought));
      assert b'.ledger == b.ledger + [b'.ledger[|b.ledger|]];
      TotalAfterUpdate(b.purchases, PaidTokens, ref, b'.purchases[ref]);
    }
  }

  lemma OtherRowKeepsBought(b: Books, b': Books, r: Row)
    requires BoughtIsPaid(b) && b'.purchases == b.purchases && b'.ledger == b.ledger + [r] && r.kind != Bought
    ensures BoughtIsPaid(b')
  {
    SumOneMore(b.ledger, r, OfKind(Bought));
  }

  lemma ApplyKeepsBought(b: Books, op: Op)
    requires BoughtIsPaid(b)
    ensures BoughtIsPaid(Apply(b, op))
  {
    var b' := Apply(b, op);
    match op
    case DoTip(from, to, tokens) =>
      if TipError(b, from, to, tokens).None? {
        var paid := DebitAndRecord(b, from, tokens, TipSent);
        OtherRowKeepsBought(b, paid, paid.ledger[|b.ledger|]);
        OtherRowKeepsBought(paid, b', b'.ledger[|paid.ledger|]);
      }
    case DoFulfil(ref, event) => FulfilKeepsBought(b, ref, event);
    case DoAdjust(u, delta, note) =>
      if AdjustError(b, u, delta, note).None? { OtherRowKeepsBought(b, b', b'.ledger[|b.ledger|]); }
    case DoRead(_) =>
    case DoGrant(_, _, _) => OtherRowKeepsBought(b, b', b'.ledger[|b.ledger|]);
    case DoOrder(ref, u, amount) =>
      if ref !in b.purchases { TotalAfterUpdate(b.purchases, PaidTokens, ref, Purchase(u, amount, Pending, None)); }
  }

  /** After any sequence of operations the balances are the paid, granted and net adjusted tokens. */
  lemma {:induction false} BalancesArePaidFor(ops: seq<Op>)
    ensures var b := Execute(EMPTY_BOOKS, ops);
      BoughtIsPaid(b) &&
      TotalBalance(b.accounts) ==
        Total(b.purchases, PaidTokens) + Sum(b.ledger, OfKind(Promo)) + Sum(b.ledger, OfKind(Adjustment))
  {
    TokensAreConserved(ops);
    if ops != [] {
      BalancesArePaidFor(ops[..|ops| - 1]);
      ApplyKeepsBought(Execute(EMPTY_BOOKS, ops[..|ops| - 1]), ops[|ops| - 1]);
    }
  }

  // ---------------------------------------------------------------------------------------
  // Where a series of deliveries leads
  // ---------------------------------------------------------------------------------------

  datatype Delivery = Delivery(ref: PurchaseRef, event: EventId)

  function Deliver(b: Books, ds: seq<Delivery>): Books {
    if ds == [] then b
    else FulfilPurchase(Deliver(b, ds[..|ds| - 1]), ds[|ds| - 1].ref, ds[|ds| - 1].event)
  }

  /** Event ids sit on completed purchases only. */
  ghost predicate EventsAreClaimed(b: Books) {
    forall ref | ref in b.purchases && b.purchases[ref].eventId.Some? :: b.purchases[ref].status == Completed
  }

  lemma {:induction false} EventsAreClaimedAlways(ops: seq<Op>)
    ensures EventsAreClaimed(Execute(EMPTY_BOOKS, ops))
  {
    if ops != [] {
      EventsAreClaimedAlways(ops[..|ops| - 1]);
    }
  }

  /** The delivery would be credited if it came first. */
  predicate Live(b: Books, d: Delivery) { Fulfils(b, d.ref, d.event) }

  /** The purchases for which some delivery would be. */
  function LiveRefs(b: Books, ds: seq<Delivery>): set<PurchaseRef> { set d | d in ds && Live(b, d) :: d.ref }

  predicate IsDone(b: Books, ref: PurchaseRef) { ref in b.purchases && b.purchases[ref].status == Completed }

  /** Completed by the deliveries that lead from `b` to `b'`. */
  function NewlyDone(b: Books, b': Books): set<PurchaseRef> {
    set ref | ref in b.purchases && !IsDone(b, ref) && IsDone(b', ref)
  }

  predicate Carries(b: Books, ref: PurchaseRef, event: EventId) {
    ref in b.purchases && b.purchases[ref].eventId == Some(event)
  }

  /** What completing these purchases owes `u`. */
  ghost function Owed(b: Books, refs: set<PurchaseRef>, u: UserId): int {
    if refs == {} then 0
    else
      var ref :| ref in refs;
      OwedFor(b, ref, u) + Owed(b, refs - {ref}, u)
  }

  function OwedFor(b: Books, ref: PurchaseRef, u: UserId): int {
    if ref in b.purchases && b.purchases[ref].user == u then b.purchases[ref].tokens else 0
  }

  lemma {:induction false} OwedWithout(b: Books, refs: set<PurchaseRef>, ref: PurchaseRef, u: UserId)
    requires ref in refs
    ensures Owed(b, refs, u) == OwedFor(b, ref, u) + Owed(b, refs - {ref}, u)
    decreases |refs|
  {
    var other :| other in refs && Owed(b, refs, u) == OwedFor(b, other, u) + Owed(b, refs - {other}, u);
    if other != ref {
      OwedWithout(b, refs - {other}, ref, u);
      OwedWithout(b, refs - {ref}, other, u);
      assert refs - {other} - {ref} == refs - {ref} - {other};
    }
  }

  /** Every purchase is as it was, or completed under an event that was delivered for it and no other. */
  ghost predicate PurchasesFollow(b: Books, b': Books, ds: seq<Delivery>) {
    b'.purchases.Keys == b.purchases.Keys &&
    (forall ref | ref in b.purchases && ref !in NewlyDone(b, b') :: b'.purchases[ref] == b.purchases[ref]) &&
    (forall ref | ref in NewlyDone(b, b') ::
      b'.purchases[ref].eventId.Some? &&
      Delivery(ref, b'.purchases[ref].eventId.value) in ds && Live(b, Delivery(ref, b'.purchases[ref].eventId.value)) &&
      b'.purchases[ref] == b.purchases[ref].(status := Completed, eventId := b'.purchases[ref].eventId)) &&
    (forall ref, other, event | ref in NewlyDone(b, b') && Carries(b', ref, event) && Carries(b', other, event) ::
      other == ref)
  }

  /** A delivery that was not credited found its purchase done or its event taken. */
  ghost predicate NothingIsMissed(b: Books, b': Books, ds: seq<Delivery>) {
    forall d | d in ds && Live(b, d) && !IsDone(b', d.ref) :: EventTaken(b', d.ref, d.event)
  }

  /** The accounts follow from which purchases were completed. */
  ghost predicate AccountsFollow(b: Books, b': Books) {
    forall u ::
      BalanceOf(b', u) == BalanceOf(b, u) + Owed(b, NewlyDone(b, b'), u) &&
      PurchasedOf(b', u) == PurchasedOf(b, u) + Owed(b, NewlyDone(b, b'), u) &&
      EarnedOf(b', u) == EarnedOf(b, u)
  }

  /** Deliveries never free an event: what is credited later would have been credited first. */
  lemma CreditedWasLive(b: Books, b': Books, ds: seq<Delivery>, d: Delivery)
    requires EventsAreClaimed(b) && PurchasesFollow(b, b', ds) && Live(b', d)
    ensures Live(b, d) && d.ref !in NewlyDone(b, b') && b'.purchases[d.ref].eventId == None
  {
    assert d.ref !in NewlyDone(b, b');
  }

  lemma CreditedOneMore(b: Books, b': Books, ds: seq<Delivery>, d: Delivery)
    requires EventsAreClaimed(b) && PurchasesFollow(b, b', ds) && Live(b', d)
    ensures NewlyDone(b, FulfilPurchase(b', d.ref, d.event)) == NewlyDone(b, b') + {d.ref}
    ensures PurchasesFollow(b, FulfilPurchase(b', d.ref, d.event), ds + [d])
  {
    var after := FulfilPurchase(b', d.ref, d.event);
    CreditedWasLive(b, b', ds, d);
    assert after.purchases == b'.purchases[d.ref := after.purchases[d.ref]];
    assert NewlyDone(b, after) == NewlyDone(b, b') + {d.ref};
    assert d in ds + [d] && forall e | e in ds :: e in ds + [d];
    forall ref, other, event | ref in NewlyDone(b, after) && Carries(after, ref, event) && Carries(after, other, event)
      ensures other == ref
    {
      if other != ref {
        CarriersDiffer(b', after, d, ref, other, event);
      }
    }
  }

  /** A credited event has no second carrier. */
  lemma CarriersDiffer(b: Books, after: Books, d: Delivery, ref: PurchaseRef, other: PurchaseRef, event: EventId)
    requires Live(b, d) && after == FulfilPurchase(b, d.ref, d.event) && ref != other
    requires Carries(after, ref, event) && Carries(after, other, event)
    ensures ref != d.ref && other != d.ref && Carries(b, ref, event) && Carries(b, other, event)
  {
    assert after.purchases == b.purchases[d.ref := after.purchases[d.ref]];
  }

  lemma MissedOneMore(b: Books, b': Books, ds: seq<Delivery>, d: Delivery)
    requires EventsAreClaimed(b) && PurchasesFollow(b, b', ds) && NothingIsMissed(b, b', ds)
    ensures NothingIsMissed(b, FulfilPurchase(b', d.ref, d.event), ds + [d])
  {
    var after := FulfilPurchase(b', d.ref, d.event);
    forall e | e in ds + [d] && Live(b, e) && !IsDone(after, e.ref) ensures EventTaken(after, e.ref, e.event) {
      assert !IsDone(b', e.ref) && EventTaken(b', e.ref, e.event);
      var other :| other in b'.purchases && other != e.ref && b'.purchases[other].eventId == Some(e.event);
      if Live(b', d) {
        CreditedWasLive(b, b', ds, d);
      }
      assert Carries(after, other, e.event);
    }
  }

  lemma AccountsOneMore(b: Books, b': Books, ds: seq<Delivery>, d: Delivery)
    requires EventsAreClaimed(b) && PurchasesFollow(b, b', ds) && AccountsFollow(b, b') && Live(b', d)
    ensures AccountsFollow(b, FulfilPurchase(b', d.ref, d.event))
  {
    CreditedWasLive(b, b', ds, d);
    CreditedOneMore(b, b', ds, d);
    var done := NewlyDone(b, b');
    forall u ensures Owed(b, done + {d.ref}, u) == OwedFor(b, d.ref, u) + Owed(b, done, u) {
      OwedWithout(b, done + {d.ref}, d.ref, u);
      assert done + {d.ref} - {d.ref} == done;
    }
    assert b'.purchases[d.ref] == b.purchases[d.ref];
  }

  /** Where any deliveries lead: what is credited, what is not and why, and what the accounts hold. */
  lemma {:induction false} DeliveriesLead(b: Books, ds: seq<Delivery>)
    requires EventsAreClaimed(b)
    ensures var b' := Deliver(b, ds);
      PurchasesFollow(b, b', ds) && NothingIsMissed(b, b', ds) && AccountsFollow(b, b')
  {
    if ds == [] {
      assert NewlyDone(b, b) == {};
    } else {
      var front, d := ds[..|ds| - 1], ds[|ds| - 1];
      assert ds == front + [d];
      DeliveriesLead(b, front);
      var b' := Deliver(b, front);
      MissedOneMore(b, b', front, d);
      if Live(b', d) {
        CreditedOneMore(b, b', front, d);
        AccountsOneMore(b, b', front, d);
      } else {
        assert forall e | e in front :: e in ds;
      }
    }
  }

  lemma {:induction false} DeliverConcat(b: Books, ds: seq<Delivery>, more: seq<Delivery>)
    ensures Deliver(b, ds + more) == Deliver(Deliver(b, ds), more)
  {
    if more == [] {
      assert ds + more == ds;
    } else {
      DeliverConcat(b, ds, more[..|more| - 1]);
      assert (ds + more)[..|ds + more| - 1] == ds + more[..|more| - 1];
    }
  }

  /** A completed purchase keeps its status and its event. */
  lemma {:induction false} DoneStaysDone(b: Books, ds: seq<Delivery>, ref: PurchaseRef)
    requires IsDone(b, ref)
    ensures IsDone(Deliver(b, ds), ref) && Deliver(b, ds).purchases[ref] == b.purchases[ref]
  {
    if ds != [] {
      DoneStaysDone(b, ds[..|ds| - 1], ref);
    }
  }

  // ---------------------------------------------------------------------------------------
  // When the order of deliveries matters
  // ---------------------------------------------------------------------------------------

  /**
   Other purchases, a different one for each, could take every event with which `ref` might be
   credited: `takers` says which.
  */
  predicate IsCrowd(b: Books, ds: seq<Delivery>, ref: PurchaseRef, takers: map<EventId, PurchaseRef>) {
    ref in LiveRefs(b, ds) &&
    (forall d | d in ds && Live(b, d) && d.ref == ref :: d.event in takers) &&
    (forall e | e in takers ::
       takers[e] != ref && Delivery(takers[e], e) in ds && Live(b, Delivery(takers[e], e))) &&
    (forall e, f | e in takers && f in takers && takers[e] == takers[f] :: e == f)
  }

  ghost predicate CanBeCrowdedOut(b: Books, ds: seq<Delivery>, ref: PurchaseRef) {
    exists takers :: IsCrowd(b, ds, ref, takers)
  }

  ghost predicate Uncrowded(b: Books, ds: seq<Delivery>) { forall ref :: !CanBeCrowdedOut(b, ds, ref) }

  ghost predicate SameDeliveries(ds: seq<Delivery>, ds': seq<Delivery>) { forall d :: d in ds <==> d in ds' }

  /** Every balance, both lifetime counters and every purchase status agree. */
  ghost predicate SameOutcome(one: Books, two: Books) {
    (forall u :: BalanceOf(one, u) == BalanceOf(two, u) && PurchasedOf(one, u) == PurchasedOf(two, u) &&
                 EarnedOf(one, u) == EarnedOf(two, u)) &&
    one.purchases.Keys == two.purchases.Keys &&
    (forall ref | ref in one.purchases :: one.purchases[ref].status == two.purchases[ref].status)
  }

  ghost function CarrierOf(b: Books, event: EventId): PurchaseRef
    requires exists ref :: Carries(b, ref, event)
  {
    var ref :| Carries(b, ref, event);
    ref
  }

  /** The events with which `ref` might be credited. */
  function EventsFor(b: Books, ds: seq<Delivery>, ref: PurchaseRef): set<EventId> {
    set d | d in ds && Live(b, d) && d.ref == ref :: d.event
  }

  /** Whoever carries an event of an uncredited purchase was credited under it. */
  lemma CarrierWasCredited(b: Books, b': Books, ds: seq<Delivery>, ref: PurchaseRef, other: PurchaseRef, e: EventId)
    requires EventsAreClaimed(b) && PurchasesFollow(b, b', ds)
    requires Live(b, Delivery(ref, e)) && !IsDone(b', ref) && Carries(b', other, e)
    ensures other != ref && Delivery(other, e) in ds && Live(b, Delivery(other, e))
  {
    assert ref !in NewlyDone(b, b') && b.purchases[ref].eventId == None;
  }

  lemma UncreditedEventIsCarried(b: Books, b': Books, ds: seq<Delivery>, ref: PurchaseRef, e: EventId)
    requires NothingIsMissed(b, b', ds) && e in EventsFor(b, ds, ref) && !IsDone(b', ref)
    ensures Live(b, Delivery(ref, e)) && exists other :: Carries(b', other, e)
  {
    var d :| d in ds && Live(b, d) && d.ref == ref && d.event == e;
    assert d == Delivery(ref, e) && EventTaken(b', ref, e);
    var holder :| holder in b'.purchases && holder != ref && b'.purchases[holder].eventId == Some(e);
    assert Carries(b', holder, e);
  }

  /** If others carry every event of `ref`, they are a crowd: nobody carries two events. */
  lemma CarriersAreACrowd(b: Books, b': Books, ds: seq<Delivery>, ref: PurchaseRef)
    requires ref in LiveRefs(b, ds)
    requires forall e | e in EventsFor(b, ds, ref) :: exists other :: Carries(b', other, e)
    requires forall e, other | e in EventsFor(b, ds, ref) && Carries(b', other, e) ::
      other != ref && Delivery(other, e) in ds && Live(b, Delivery(other, e))
    ensures CanBeCrowdedOut(b, ds, ref)
  {
    var takers := map e | e in EventsFor(b, ds, ref) :: CarrierOf(b', e);
    assert forall e | e in takers :: Carries(b', takers[e], e);
    assert forall d | d in ds && Live(b, d) && d.ref == ref :: d.event in EventsFor(b, ds, ref);
    assert IsCrowd(b, ds, ref, takers);
  }

  /** A purchase that was delivered and not credited was crowded out. */
  lemma UncreditedIsCrowdedOut(b: Books, ds: seq<Delivery>, ref: PurchaseRef)
    requires EventsAreClaimed(b) && ref in LiveRefs(b, ds) && !IsDone(Deliver(b, ds), ref)
    ensures CanBeCrowdedOut(b, ds, ref)
  {
    var b' := Deliver(b, ds);
    DeliveriesLead(b, ds);
    forall e | e in EventsFor(b, ds, ref)
      ensures exists other :: Carries(b', other, e)
      ensures forall other | Carries(b', other, e) ::
        other != ref && Delivery(other, e) in ds && Live(b, Delivery(other, e))
    {
      UncreditedEventIsCarried(b, b', ds, ref, e);
      forall other | Carries(b', other, e)
        ensures other != ref && Delivery(other, e) in ds && Live(b, Delivery(other, e))
      {
        CarrierWasCredited(b, b', ds, ref, other, e);
      }
    }
    CarriersAreACrowd(b, b', ds, ref);
  }

  lemma UncrowdedCompletesAll(b: Books, ds: seq<Delivery>)
    requires EventsAreClaimed(b) && Uncrowded(b, ds)
    ensures NewlyDone(b, Deliver(b, ds)) == LiveRefs(b, ds)
  {
    DeliveriesLead(b, ds);
    forall ref | ref in LiveRefs(b, ds) ensures ref in NewlyDone(b, Deliver(b, ds)) {
      if !IsDone(Deliver(b, ds), ref) {
        UncreditedIsCrowdedOut(b, ds, ref);
      }
    }
    forall ref | ref in NewlyDone(b, Deliver(b, ds)) ensures ref in LiveRefs(b, ds) {
      assert Delivery(ref, Deliver(b, ds).purchases[ref].eventId.value) in ds;
    }
  }

  /**
   Delivery confluence. Two delivery histories in which nobody can be crowded out, and which hold
   live deliveries for the same purchases, leave every balance, every lifetime counter and every
   status the same, whatever their orders, repetitions and event ids.
  */
  lemma DeliveriesCommute(b: Books, ds: seq<Delivery>, ds': seq<Delivery>)
    requires EventsAreClaimed(b) && Uncrowded(b, ds) && Uncrowded(b, ds') && LiveRefs(b, ds) == LiveRefs(b, ds')
    ensures SameOutcome(Deliver(b, ds), Deliver(b, ds'))
  {
    DeliveriesLead(b, ds);
    DeliveriesLead(b, ds');
    UncrowdedCompletesAll(b, ds);
    UncrowdedCompletesAll(b, ds');
    SameDoneSameOutcome(b, Deliver(b, ds), ds, Deliver(b, ds'), ds');
  }

  lemma SameDoneSameOutcome(b: Books, one: Books, ds: seq<Delivery>, two: Books, ds': seq<Delivery>)
    requires PurchasesFollow(b, one, ds) && AccountsFollow(b, one)
    requires PurchasesFollow(b, two, ds') && AccountsFollow(b, two)
    requires NewlyDone(b, one) == NewlyDone(b, two)
    ensures SameOutcome(one, two)
  {
    forall ref | ref in one.purchases ensures one.purchases[ref].status == two.purchases[ref].status {
      if ref in NewlyDone(b, one) {
        assert IsDone(one, ref) && IsDone(two, ref);
      }
    }
  }

  lemma SameDeliveriesSameCrowds(b: Books, ds: seq<Delivery>, ds': seq<Delivery>)
    requires SameDeliveries(ds, ds')
    ensures LiveRefs(b, ds) == LiveRefs(b, ds')
    ensures Uncrowded(b, ds) ==> Uncrowded(b, ds')
  {
    assert LiveRefs(b, ds) == LiveRefs(b, ds');
    forall ref, takers | IsCrowd(b, ds', ref, takers) ensures IsCrowd(b, ds, ref, takers) {}
    if Uncrowded(b, ds) {
      forall ref ensures !CanBeCrowdedOut(b, ds', ref) {
        assert !CanBeCrowdedOut(b, ds, ref);
      }
    }
  }

  /** Deliveries for other purchases under other events leave a live delivery live. */
  lemma StaysLive(b: Books, ds: seq<Delivery>, d: Delivery)
    requires EventsAreClaimed(b) && Live(b, d) && forall e | e in ds :: e.ref != d.ref && e.event != d.event
    ensures Live(Deliver(b, ds), d)
  {
    var b' := Deliver(b, ds);
    DeliveriesLead(b, ds);
    assert d.ref !in NewlyDone(b, b');
    if other :| other in b'.purchases && other != d.ref && b'.purchases[other].eventId == Some(d.event) {
      assert false;
    }
  }

  /** The deliveries of a crowd, one after the other, are all credited. */
  lemma {:induction false} CrowdIsCredited(b: Books, takers: map<EventId, PurchaseRef>) returns (ds: seq<Delivery>)
    requires EventsAreClaimed(b)
    requires forall e | e in takers :: Live(b, Delivery(takers[e], e))
    requires forall e, f | e in takers && f in takers && takers[e] == takers[f] :: e == f
    ensures forall d | d in ds :: d.event in takers && takers[d.event] == d.ref
    ensures forall e | e in takers :: IsDone(Deliver(b, ds), takers[e]) && Carries(Deliver(b, ds), takers[e], e)
    decreases |takers|
  {
    if takers == map[] {
      ds := [];
    } else {
      var e :| e in takers;
      var rest, d := takers - {e}, Delivery(takers[e], e);
      var front := CrowdIsCredited(b, rest);
      ds := front + [d];
      StaysLive(b, front, d);
      assert ds[..|ds| - 1] == front;
      CrowdGrows(Deliver(b, front), takers, e);
    }
  }

  lemma CrowdGrows(b: Books, takers: map<EventId, PurchaseRef>, e: EventId)
    requires e in takers && Live(b, Delivery(takers[e], e))
    requires forall f | f in takers - {e} :: IsDone(b, (takers - {e})[f]) && Carries(b, (takers - {e})[f], f)
    ensures var after := FulfilPurchase(b, takers[e], e);
      forall f | f in takers :: IsDone(after, takers[f]) && Carries(after, takers[f], f)
  {
    var rest, after := takers - {e}, FulfilPurchase(b, takers[e], e);
    LiveIsCredited(b, Delivery(takers[e], e));
    forall f | f in takers ensures IsDone(after, takers[f]) && Carries(after, takers[f], f) {
      if f != e {
        assert f in rest && rest[f] == takers[f];
        OneMoreStaysDone(b, Delivery(takers[e], e), takers[f]);
      }
    }
  }

  lemma LiveIsCredited(b: Books, d: Delivery)
    requires Live(b, d)
    ensures IsDone(FulfilPurchase(b, d.ref, d.event), d.ref)
    ensures Carries(FulfilPurchase(b, d.ref, d.event), d.ref, d.event)
  {
  }

  lemma OneMoreStaysDone(b: Books, d: Delivery, ref: PurchaseRef)
    requires IsDone(b, ref)
    ensures IsDone(FulfilPurchase(b, d.ref, d.event), ref)
    ensures FulfilPurchase(b, d.ref, d.event).purchases[ref] == b.purchases[ref]
  {
  }

  /** If `ref` can be crowded out, some orders credit it and some do not. */
  lemma CrowdChangesOutcome(b: Books, ds: seq<Delivery>, ref: PurchaseRef, takers: map<EventId, PurchaseRef>)
    returns (without: seq<Delivery>, with: seq<Delivery>)
    requires EventsAreClaimed(b) && IsCrowd(b, ds, ref, takers)
    ensures SameDeliveries(ds, without) && !IsDone(Deliver(b, without), ref)
    ensures SameDeliveries(ds, with) && IsDone(Deliver(b, with), ref)
  {
    var d :| d in ds && Live(b, d) && d.ref == ref;
    with := [d] + ds;
    assert [d][..0] == [];
    assert Deliver(b, [d]) == FulfilPurchase(b, d.ref, d.event);
    DeliverConcat(b, [d], ds);
    DoneStaysDone(Deliver(b, [d]), ds, ref);

    var crowd := CrowdIsCredited(b, takers);
    without := crowd + ds;
    DeliverConcat(b, crowd, ds);
    DeliveriesLead(b, without);
    var b' := Deliver(b, without);
    if IsDone(b', ref) {
      var e := b'.purchases[ref].eventId.value;
      assert Delivery(ref, e) in without && Live(b, Delivery(ref, e));
      assert e in takers;
      DoneStaysDone(Deliver(b, crowd), ds, takers[e]);
      assert Carries(b', ref, e) && Carries(b', takers[e], e);
    }
  }

  /**
   Exactly when the order does not matter: every order, with any repetitions, of the same
   deliveries has the same outcome if and only if no purchase can be crowded out.
  */
  lemma OrderIsIrrelevantIffUncrowded(b: Books, ds: seq<Delivery>)
    requires EventsAreClaimed(b)
    ensures (forall ds' | SameDeliveries(ds, ds') :: SameOutcome(Deliver(b, ds), Deliver(b, ds'))) <==>
            Uncrowded(b, ds)
  {
    if Uncrowded(b, ds) {
      forall ds' | SameDeliveries(ds, ds') ensures SameOutcome(Deliver(b, ds), Deliver(b, ds')) {
        SameDeliveriesSameCrowds(b, ds, ds');
        DeliveriesCommute(b, ds, ds');
      }
    } else {
      var ref :| CanBeCrowdedOut(b, ds, ref);
      var takers :| IsCrowd(b, ds, ref, takers);
      var without, with := CrowdChangesOutcome(b, ds, ref, takers);
      assert !(SameOutcome(Deliver(b, ds), Deliver(b, without)) && SameOutcome(Deliver(b, ds), Deliver(b, with)));
    }
  }

  /** It is enough that no two purchases have live deliveries under one event. */
  lemma OwnEventsAreUncrowded(b: Books, ds: seq<Delivery>)
    requires forall d, e | d in ds && e in ds && Live(b, d) && Live(b, e) && d.event == e.event :: d.ref == e.ref
    ensures Uncrowded(b, ds)
  {
    forall ref, takers ensures !IsCrowd(b, ds, ref, takers) {
      if ref in LiveRefs(b, ds) {
        var d :| d in ds && Live(b, d) && d.ref == ref;
        assert d.event in takers ==> takers[d.event] == ref || !Live(b, Delivery(takers[d.event], d.event)) ||
                                     Delivery(takers[d.event], d.event) !in ds;
      }
    }
  }

  /** Two live deliveries contest one event for two purchases. */
  predicate Contest(b: Books, d: Delivery, e: Delivery) {
    d.ref != e.ref && d.event == e.event && Live(b, d) && Live(b, e)
  }

  /** For two deliveries: swapping them changes nothing if and only if they do not contest an event. */
  lemma SwapIsHarmlessIffNoContest(b: Books, d: Delivery, e: Delivery)
    requires EventsAreClaimed(b)
    ensures SameOutcome(Deliver(b, [d, e]), Deliver(b, [e, d])) <==> !Contest(b, d, e)
  {
    if Contest(b, d, e) {
      SecondIsDropped(b, d, e);
      SecondIsDropped(b, e, d);
      assert b.purchases[e.ref].status != Completed;
      assert FulfilPurchase(b, d.ref, d.event).purchases[e.ref] == b.purchases[e.ref];
    } else {
      assert SameDeliveries([d, e], [e, d]);
      OwnEventsAreUncrowded(b, [d, e]);
      OrderIsIrrelevantIffUncrowded(b, [d, e]);
    }
  }

  lemma SecondIsDropped(b: Books, first: Delivery, second: Delivery)
    requires Contest(b, first, second)
    ensures Deliver(b, [first, second]) == FulfilPurchase(b, first.ref, first.event)
  {
    assert [first, second][..1] == [first] && [first][..0] == [];
    var once := FulfilPurchase(b, first.ref, first.event);
    assert Deliver(b, [first]) == once;
    assert first.ref in once.purchases && once.purchases[first.ref].eventId == Some(first.event);
    assert EventTaken(once, second.ref, second.event);
  }

  /**
   Two purchases are ordered, and one event id arrives for both: whichever comes first takes the
   id, and the other is dropped as a duplicate.
  */
  lemma SharedEventsDoNotCommute()
    ensures var b := Execute(EMPTY_BOOKS, [DoOrder(1, 10, 5), DoOrder(2, 20, 7)]);
      var one, two := Deliver(b, [Delivery(1, 99), Delivery(2, 99)]), Deliver(b, [Delivery(2, 99), Delivery(1, 99)]);
      EventsAreClaimed(b) &&
      BalanceOf(one, 10) == 5 && BalanceOf(one, 20) == 0 && BalanceOf(two, 10) == 0 && BalanceOf(two, 20) == 7
  {
    var ops := [DoOrder(1, 10, 5), DoOrder(2, 20, 7)];
    assert ops[..1] == [DoOrder(1, 10, 5)] && ops[..1][..0] == [];
    assert Execute(EMPTY_BOOKS, ops[..1]) == Books(map[], [], map[1 := Purchase(10, 5, Pending, None)], []);
    var b := Execute(EMPTY_BOOKS, ops);
    assert b == Books(map[], [], map[1 := Purchase(10, 5, Pending, None), 2 := Purchase(20, 7, Pending, None)], []);
    SecondIsDropped(b, Delivery(1, 99), Delivery(2, 99));
    SecondIsDropped(b, Delivery(2, 99), Delivery(1, 99));
  }
}
