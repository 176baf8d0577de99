/** Every balance can be replayed from the ledger, and tokens are conserved. */
module LedgerProperties {
  import opened Common
  import opened Ledger

  // ---------------------------------------------------------------------------------------
  // Summing the ledger
  // ---------------------------------------------------------------------------------------

  datatype Filter = OfUser(user: UserId) | EarnedBy(user: UserId) | PurchasedBy(user: UserId)
                  | OfKind(kind: Kind) | OfCampaign(campaign: CampaignId) | Tips | AllRows

  predicate Matches(f: Filter, r: Row) {
    match f
    case OfUser(u) => r.user == u
    case EarnedBy(u) => r.user == u && (r.kind == TipReceived || r.kind == Promo)
    case PurchasedBy(u) => r.user == u && r.kind == Bought
    case OfKind(k) => r.kind == k
    case OfCampaign(c) => r.campaign == Some(c)
    case Tips => r.kind == TipSent || r.kind == TipReceived
    case AllRows => true
  }

  function Sum(rows: seq<Row>, f: Filter): int {
    if rows == [] then 0
    else Sum(rows[..|rows| - 1], f) + (if Matches(f, rows[|rows| - 1]) then rows[|rows| - 1].delta else 0)
  }

  lemma SumOneMore(rows: seq<Row>, r: Row, f: Filter)
    ensures Sum(rows + [r], f) == Sum(rows, f) + (if Matches(f, r) then r.delta else 0)
  {
    assert (rows + [r])[..|rows|] == rows;
  }

  // ---------------------------------------------------------------------------------------
  // Replay
  // ---------------------------------------------------------------------------------------

  /** The cached numbers of `u` are what replaying the ledger gives. */
  ghost predicate Replays(b: Books, u: UserId) {
    BalanceOf(b, u) == Sum(b.ledger, OfUser(u)) &&
    EarnedOf(b, u) == Sum(b.ledger, EarnedBy(u)) &&
    PurchasedOf(b, u) == Sum(b.ledger, PurchasedBy(u)) &&
    BalanceOf(b, u) >= 0
  }

  /** Each row is stamped with its user's running total. */
  ghost predicate RowsAreStamped(b: Books) {
    forall i | 0 <= i < |b.ledger| ::
      b.ledger[i].balanceAfter == Sum(b.ledger[..i + 1], OfUser(b.ledger[i].user)) >= 0
  }

  ghost predicate BooksOk(b: Books) {
    (forall u :: Replays(b, u)) && RowsAreStamped(b)
  }

  /** A new row stamped with its user's new total keeps every stamp right. */
  lemma StampOneMore(b: Books, b': Books, r: Row)
    requires RowsAreStamped(b) && b'.ledger == b.ledger + [r]
    requires r.balanceAfter == Sum(b'.ledger, OfUser(r.user)) >= 0
    ensures RowsAreStamped(b')
  {
    forall i | 0 <= i < |b'.ledger|
      ensures b'.ledger[i].balanceAfter == Sum(b'.ledger[..i + 1], OfUser(b'.ledger[i].user)) >= 0
    {
      if i < |b.ledger| {
        assert b'.ledger[..i + 1] == b.ledger[..i + 1];
      } else {
        assert b'.ledger[..i + 1] == b'.ledger;
      }
    }
  }

  /** Moving one account by a row's delta, and stamping the row with the result, keeps the books right. */
  lemma MovementReplays(b: Books, b': Books, r: Row)
    requires BooksOk(b) && b'.ledger == b.ledger + [r]
    requires forall v :: BalanceOf(b', v) == BalanceOf(b, v) + (if Matches(OfUser(v), r) then r.delta else 0)
    requires forall v :: EarnedOf(b', v) == EarnedOf(b, v) + (if Matches(EarnedBy(v), r) then r.delta else 0)
    requires forall v :: PurchasedOf(b', v) == PurchasedOf(b, v) + (if Matches(PurchasedBy(v), r) then r.delta else 0)
    requires r.balanceAfter == BalanceOf(b', r.user) >= 0
    ensures BooksOk(b')
  {
    forall v ensures Replays(b', v) {
      assert Replays(b, v);
      SumOneMore(b.ledger, r, OfUser(v));
      SumOneMore(b.ledger, r, EarnedBy(v));
      SumOneMore(b.ledger, r, PurchasedBy(v));
    }
    assert Replays(b', r.user);
    StampOneMore(b, b', r);
  }

  lemma CreditReplays(b: Books, u: UserId, amount: nat, kind: Kind, earned: nat, purchased: nat,
                      ref: Option<PurchaseRef>, campaign: Option<CampaignId>)
    requires BooksOk(b)
    requires earned == (if kind == TipReceived || kind == Promo then amount else 0)
    requires purchased == (if kind == Bought then amount else 0)
    ensures BooksOk(CreditAndRecord(b, u, amount, kind, earned, purchased, ref, campaign))
  {
    assert Replays(b, u);
    MovementReplays(b, CreditAndRecord(b, u, amount, kind, earned, purchased, ref, campaign),
                    Row(u, amount, kind, BalanceOf(b, u) + amount, ref, campaign));
  }

  lemma DebitReplays(b: Books, u: UserId, amount: nat, kind: Kind)
    requires BooksOk(b) && CanDebit(b, u, amount) && (kind == TipSent || kind == Adjustment)
    ensures BooksOk(DebitAndRecord(b, u, amount, kind))
  {
    MovementReplays(b, DebitAndRecord(b, u, amount, kind),
                    Row(u, 0 - amount, kind, BalanceOf(b, u) - amount, None, None));
  }

  /** Neither purchases nor tip records bear on replay. */
  lemma SameAccountsSameReplay(b: Books, b': Books)
    requires BooksOk(b) && b'.ledger == b.ledger
    requires forall u :: BalanceOf(b', u) == BalanceOf(b, u) && EarnedOf(b', u) == EarnedOf(b, u) &&
                         PurchasedOf(b', u) == PurchasedOf(b, u)
    ensures BooksOk(b')
  {
    forall u ensures Replays(b', u) {
      assert Replays(b, u);
    }
  }

  lemma ApplyReplays(b: Books, op: Op)
    requires BooksOk(b)
    ensures BooksOk(Apply(b, op))
  {
    match op
    case DoTip(from, to, tokens) =>
      if TipError(b, from, to, tokens).None? {
        DebitReplays(b, from, tokens, TipSent);
        var paid := DebitAndRecord(b, from, tokens, TipSent);
        CreditReplays(paid, to, tokens, TipReceived, tokens, 0, None, None);
        SameAccountsSameReplay(CreditAndRecord(paid, to, tokens, TipReceived, tokens, 0, None, None), Apply(b, op));
      }
    case DoFulfil(ref, event) =>
      if Fulfils(b, ref, event) {
        var p := b.purchases[ref];
        var claimed := b.(purchases := b.purchases[ref := p.(status := Completed, eventId := Some(event))]);
        SameAccountsSameReplay(b, claimed);
        CreditReplays(claimed, p.user, p.tokens, Bought, 0, p.tokens, Some(ref), None);
      }
    case DoAdjust(u, delta, note) =>
      if AdjustError(b, u, delta, note).None? {
        if delta > 0 {
          CreditReplays(b, u, delta, Adjustment, 0, 0, None, None);
        } else {
          DebitReplays(b, u, -delta, Adjustment);
        }
      }
    case DoRead(u) => SameAccountsSameReplay(b, Apply(b, op));
    case DoGrant(campaign, u, amount) => CreditReplays(b, u, amount, Promo, amount, 0, None, Some(campaign));
    case DoOrder(_, _, _) => SameAccountsSameReplay(b, Apply(b, op));
  }

  /**
   Ledger replay. After any sequence of operations every balance is its user's ledger total and
   never negative, both lifetime counters are the sums of the rows they count, and every row
   carries the running total.
  */
  lemma {:induction false} LedgerReplay(ops: seq<Op>)
    ensures BooksOk(Execute(EMPTY_BOOKS, ops))
  {
    if ops != [] {
      LedgerReplay(ops[..|ops| - 1]);
      ApplyReplays(Execute(EMPTY_BOOKS, ops[..|ops| - 1]), ops[|ops| - 1]);
    } else {
      assert forall u :: Replays(EMPTY_BOOKS, u);
    }
  }

  // ---------------------------------------------------------------------------------------
  // Conservation
  // ---------------------------------------------------------------------------------------

  /** The sum of `value` over a table. */
  ghost function Total<V>(m: map<nat, V>, value: V -> int): int {
    if m == map[] then 0
    else
      var k :| k in m;
      value(m[k]) + Total(m - {k}, value)
  }

  /** The total does not depend on the order of summation. */
  lemma {:induction false} TotalWithout<V>(m: map<nat, V>, value: V -> int, k: nat)
    requires k in m
    ensures Total(m, value) == value(m[k]) + Total(m - {k}, value)
    decreases |m|
  {
    var j :| j in m && Total(m, value) == value(m[j]) + Total(m - {j}, value);
    if j != k {
      TotalWithout(m - {j}, value, k);
      TotalWithout(m - {k}, value, j);
      assert m - {j} - {k} == m - {k} - {j};
    }
  }

  lemma TotalAfterUpdate<V>(m: map<nat, V>, value: V -> int, k: nat, v: V)
    ensures Total(m[k := v], value) == Total(m, value) + value(v) - (if k in m then value(m[k]) else 0)
  {
    TotalWithout(m[k := v], value, k);
    assert m[k := v] - {k} == m - {k};
    if k in m {
      TotalWithout(m, value, k);
    } else {
      assert m - {k} == m;
    }
  }

  function BalanceIn(a: Account): int { a.balance }

  ghost function TotalBalance(accounts: map<UserId, Account>): int { Total(accounts, BalanceIn) }

  /** Total balances, and how the ledger accounts for them by kind. */
  ghost predicate Conserved(b: Books) {
    TotalBalance(b.accounts) == Sum(b.ledger, OfKind(Bought)) + Sum(b.ledger, OfKind(Promo)) +
                                Sum(b.ledger, OfKind(Adjustment)) + Sum(b.ledger, Tips)
  }

  lemma RowByKind(rows: seq<Row>, r: Row)
    ensures Sum(rows + [r], Tips) ==
            Sum(rows, Tips) + (if r.kind == TipSent || r.kind == TipReceived then r.delta else 0)
    ensures Sum(rows + [r], OfKind(Bought)) + Sum(rows + [r], OfKind(Promo)) +
            Sum(rows + [r], OfKind(Adjustment)) + Sum(rows + [r], Tips) ==
            Sum(rows, OfKind(Bought)) + Sum(rows, OfKind(Promo)) +
            Sum(rows, OfKind(Adjustment)) + Sum(rows, Tips) + r.delta
  {
    SumOneMore(rows, r, OfKind(Bought));
    SumOneMore(rows, r, OfKind(Promo));
    SumOneMore(rows, r, OfKind(Adjustment));
    SumOneMore(rows, r, Tips);
  }

  lemma CreditConserves(b: Books, u: UserId, amount: nat, kind: Kind, earned: nat, purchased: nat,
                        ref: Option<PurchaseRef>, campaign: Option<CampaignId>)
    requires Conserved(b)
    ensures var b' := CreditAndRecord(b, u, amount, kind, earned, purchased, ref, campaign);
      Conserved(b') && TotalBalance(b'.accounts) == TotalBalance(b.accounts) + amount &&
      Sum(b'.ledger, Tips) == Sum(b.ledger, Tips) + (if kind == TipSent || kind == TipReceived then amount else 0)
  {
    var c := Credit(b, u, amount, earned, purchased);
    TotalAfterUpdate(b.accounts, BalanceIn, u, c.accounts[u]);
    RowByKind(b.ledger, Row(u, amount, kind, BalanceOf(c, u), ref, campaign));
  }

  lemma DebitConserves(b: Books, u: UserId, amount: nat, kind: Kind)
    requires Conserved(b) && CanDebit(b, u, amount)
    ensures var b' := DebitAndRecord(b, u, amount, kind);
      Conserved(b') && TotalBalance(b'.accounts) == TotalBalance(b.accounts) - amount &&
      Sum(b'.ledger, Tips) == Sum(b.ledger, Tips) - (if kind == TipSent || kind == TipReceived then amount else 0)
  {
    var d := Debit(b, u, amount);
    TotalAfterUpdate(b.accounts, BalanceIn, u, d.accounts[u]);
    RowByKind(b.ledger, Row(u, 0 - amount, kind, BalanceOf(d, u), None, None));
  }

  ghost predicate ConservedWithTips(b: Books) { Conserved(b) && Sum(b.ledger, Tips) == 0 }

  /** A tip moves tokens; it neither makes nor destroys any. */
  lemma TipConserves(b: Books, from: UserId, to: UserId, tokens: int)
    requires ConservedWithTips(b)
    ensures ConservedWithTips(SendTip(b, from, to, tokens))
    ensures TotalBalance(SendTip(b, from, to, tokens).accounts) == TotalBalance(b.accounts)
  {
    if TipError(b, from, to, tokens).None? {
      DebitConserves(b, from, tokens, TipSent);
      var paid := DebitAndRecord(b, from, tokens, TipSent);
      CreditConserves(paid, to, tokens, TipReceived, tokens, 0, None, None);
    }
  }

  lemma FulfilConserves(b: Books, ref: PurchaseRef, event: EventId)
    requires ConservedWithTips(b)
    ensures ConservedWithTips(FulfilPurchase(b, ref, event))
  {
    if Fulfils(b, ref, event) {
      var p := b.purchases[ref];
      var claimed := b.(purchases := b.purchases[ref := p.(status := Completed, eventId := Some(event))]);
      CreditConserves(claimed, p.user, p.tokens, Bought, 0, p.tokens, Some(ref), None);
    }
  }

  lemma ApplyConserves(b: Books, op: Op)
    requires ConservedWithTips(b)
    ensures ConservedWithTips(Apply(b, op))
    ensures op.DoTip? ==> TotalBalance(Apply(b, op).accounts) == TotalBalance(b.accounts)
  {
    match op
    case DoTip(from, to, tokens) =>
      TipConserves(b, from, to, tokens);
    case DoFulfil(ref, event) =>
      FulfilConserves(b, ref, event);
    case DoAdjust(u, delta, note) =>
      if AdjustError(b, u, delta, note).None? {
        if delta > 0 {
          CreditConserves(b, u, delta, Adjustment, 0, 0, None, None);
        } else {
          DebitConserves(b, u, -delta, Adjustment);
        }
      }
    case DoRead(u) => TotalAfterUpdate(b.accounts, BalanceIn, u, Credit(b, u, 0, 0, 0).accounts[u]);
    case DoGrant(campaign, u, amount) => CreditConserves(b, u, amount, Promo, amount, 0, None, Some(campaign));
    case DoOrder(_, _, _) =>
  }

  /**
   Conservation. After any sequence of operations the balances together are the tokens bought,
   granted and net adjusted; tips, whoever sent them to whom, add up to nothing.
  */
  lemma {:induction false} TokensAreConserved(ops: seq<Op>)
    ensures var b := Execute(EMPTY_BOOKS, ops);
      TotalBalance(b.accounts) ==
        Sum(b.ledger, OfKind(Bought)) + Sum(b.ledger, OfKind(Promo)) + Sum(b.ledger, OfKind(Adjustment)) &&
      Sum(b.ledger, Tips) == 0
  {
    if ops != [] {
      TokensAreConserved(ops[..|ops| - 1]);
      ApplyConserves(Execute(EMPTY_BOOKS, ops[..|ops| - 1]), ops[|ops| - 1]);
    }
  }

  lemma {:induction false} SumByKind(rows: seq<Row>)
    ensures Sum(rows, AllRows) == Sum(rows, OfKind(Bought)) + Sum(rows, OfKind(Promo)) +
                                  Sum(rows, OfKind(Adjustment)) + Sum(rows, Tips)
  {
    if rows != [] {
      SumByKind(rows[..|rows| - 1]);
    }
  }

  /** The ledger sums to the tokens in circulation; to the tokens bought only if the rest cancels. */
  lemma LedgerSumsToBoughtIff(ops: seq<Op>)
    ensures var b := Execute(EMPTY_BOOKS, ops);
      Sum(b.ledger, AllRows) == TotalBalance(b.accounts) &&
      (Sum(b.ledger, AllRows) == Sum(b.ledger, OfKind(Bought)) <==>
       Sum(b.ledger, OfKind(Promo)) + Sum(b.ledger, OfKind(Adjustment)) == 0)
  {
    TokensAreConserved(ops);
    SumByKind(Execute(EMPTY_BOOKS, ops).ledger);
  }

  /** One goodwill adjustment is enough: the ledger holds five tokens nobody bought. */
  lemma AdjustedLedgerIsNotBought()
    ensures var b := Execute(EMPTY_BOOKS, [DoAdjust(1, 5, "x")]);
      Sum(b.ledger, AllRows) == 5 && Sum(b.ledger, OfKind(Bought)) == 0
  {
    var op := DoAdjust(1, 5, "x");
    assert [op][..0] == [];
    assert "x"[0] in "x" && !IsSpace('x');
    var row := Row(1, 5, Adjustment, 5, None, None);
    assert Execute(EMPTY_BOOKS, [op]).ledger == [] + [row];
    SumOneMore([], row, AllRows);
    SumOneMore([], row, OfKind(Bought));
  }
}
