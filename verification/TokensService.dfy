/** The token service: balances, counters and the ledger updated in place, one transaction a call. */
module TokensService {
  import opened Common
  import opened Ledger
  import opened LedgerProperties

  datatype Outcome = Done(balance: int) | Refused(error: TokenError)

  type PackageId = nat
  datatype Package = Package(tokens: nat, active: bool)
  datatype OrderOutcome = Ordered | NotAvailable | DuplicateReference

  class Service {
    var accounts: map<UserId, Account>
    var ledger: seq<Row>
    var purchases: map<PurchaseRef, Purchase>
    var tips: seq<Tip>
    const packages: map<PackageId, Package>

    ghost function Now(): Books
      reads this
    {
      Books(accounts, ledger, purchases, tips)
    }

    ghost predicate Valid()
      reads this
    {
      BooksOk(Now())
    }

    constructor (packages: map<PackageId, Package>)
      ensures Valid() && Now() == EMPTY_BOOKS && this.packages == packages
    {
      this.packages := packages;
      accounts, ledger, purchases, tips := map[], [], map[], [];
      new;
      LedgerReplay([]);
      assert Now() == Execute(EMPTY_BOOKS, []);
    }

    method GetBalance(user: UserId) returns (account: Account)
      requires Valid()
      modifies this`accounts
      ensures Valid() && Now() == TouchAccount(old(Now()), user)
      ensures user in accounts && account == accounts[user] && account.balance == Sum(ledger, OfUser(user))
      ensures accounts == if user in old(accounts) then old(accounts) else old(accounts)[user := Account(0, 0, 0)]
    {
      ApplyReplays(Now(), DoRead(user));
      if user !in accounts {
        accounts := accounts[user := Account(0, 0, 0)];
      }
      account := accounts[user];
      assert Replays(Now(), user);
    }

    /** The conditional update; false is the insufficient-funds signal. */
    method Debit(user: UserId, amount: nat) returns (ok: bool)
      modifies this`accounts
      ensures ok <==> user in old(accounts) && old(accounts)[user].balance >= amount
      ensures ok ==> accounts == old(accounts)[user := old(accounts)[user].(
                                                balance := old(accounts)[user].balance - amount)]
      ensures !ok ==> accounts == old(accounts)
      ensures Now() == if ok then Ledger.Debit(old(Now()), user, amount) else old(Now())
    {
      ok := user in accounts && accounts[user].balance >= amount;
      if ok {
        accounts := accounts[user := accounts[user].(balance := accounts[user].balance - amount)];
      }
    }

    method Credit(user: UserId, amount: nat, earned: nat, purchased: nat)
      modifies this`accounts
      ensures Now() == Ledger.Credit(old(Now()), user, amount, earned, purchased)
      ensures user in old(accounts) ==>
        var a := old(accounts)[user];
        accounts == old(accounts)[user := Account(a.balance + amount, a.lifetimeEarned + earned,
                                                  a.lifetimePurchased + purchased)]
      ensures user !in old(accounts) ==> accounts == old(accounts)[user := Account(amount, earned, purchased)]
    {
      if user !in accounts {
        accounts := accounts[user := Account(amount, earned, purchased)];
      } else {
        var a := accounts[user];
        a := Account(a.balance + amount, a.lifetimeEarned + earned, a.lifetimePurchased + purchased);
        accounts := accounts[user := a];
      }
    }

    /** What `user` has, where no account is nothing. */
    function Balance(user: UserId): int
      reads this`accounts
    {
      if user in accounts then accounts[user].balance else 0
    }

    /**
     Both movements, both ledger rows and the tip record, or nothing. A tip is refused for want of
     funds exactly if the sender has no account or less than it; otherwise it moves exactly the
     tokens, from the one to the other, and touches nobody else.
    */
    method SendTip(from: UserId, to: UserId, tokens: int) returns (outcome: Outcome)
      requires Valid()
      modifies this
      ensures Valid() && Now() == Ledger.SendTip(old(Now()), from, to, tokens)
      ensures match TipError(old(Now()), from, to, tokens)
        case Some(error) => outcome == Refused(error)
        case None =>
          outcome == Done(BalanceOf(Now(), from)) && BalanceOf(Now(), from) == BalanceOf(old(Now()), from) - tokens
      ensures outcome == Refused(SelfTip) <==> from == to
      ensures outcome == Refused(InvalidAmount) <==> from != to && tokens <= 0
      ensures outcome == Refused(InsufficientFunds) <==>
              from != to && tokens > 0 && (from !in old(accounts) || old(accounts)[from].balance < tokens)
      ensures outcome.Refused? ==> Now() == old(Now())
      ensures outcome.Done? ==>
        Balance(from) == old(Balance(from)) - tokens && Balance(to) == old(Balance(to)) + tokens &&
        forall u | u != from && u != to :: Balance(u) == old(Balance(u))
      ensures outcome.Done? ==>
        from in accounts && accounts[from] == old(accounts)[from].(balance := Balance(from)) && to in accounts &&
        accounts[to].lifetimeEarned == tokens + (if to in old(accounts) then old(accounts)[to].lifetimeEarned else 0) &&
        accounts[to].lifetimePurchased == if to in old(accounts) then old(accounts)[to].lifetimePurchased else 0
      ensures outcome.Done? ==> outcome.balance == Balance(from)
      ensures outcome.Done? ==>
        |tips| == |old(tips)| + 1 && tips[..|old(tips)|] == old(tips) &&
        tips[|old(tips)|].from == from && tips[|old(tips)|].to == to && tips[|old(tips)|].tokens == tokens
      ensures outcome.Done? ==>
        |ledger| == |old(ledger)| + 2 && ledger[..|old(ledger)|] == old(ledger) &&
        ledger[|old(ledger)|] == Row(from, -tokens, TipSent, Balance(from), None, None) &&
        ledger[|old(ledger)| + 1] == Row(to, tokens, TipReceived, Balance(to), None, None)
    {
      ApplyReplays(Now(), DoTip(from, to, tokens));
      if from == to { return Refused(SelfTip); }
      if tokens <= 0 { return Refused(InvalidAmount); }
      var ok := Debit(from, tokens);
      if !ok { return Refused(InsufficientFunds); }
      var senderBalance := accounts[from].balance;
      tips := tips + [Tip(from, to, tokens)];
      Credit(to, tokens, tokens, 0);
      ledger := ledger + [Row(from, -tokens, TipSent, senderBalance, None, None)]
                       + [Row(to, tokens, TipReceived, accounts[to].balance, None, None)];
      outcome := Done(senderBalance);
    }

    /** Credits a purchase on its first delivery; every other delivery is a no-op. */
    method FulfilPurchase(ref: PurchaseRef, event: EventId) returns (fulfilled: bool)
      requires Valid()
      modifies this
      ensures Valid() && Now() == Ledger.FulfilPurchase(old(Now()), ref, event)
      ensures fulfilled <==>
        ref in old(purchases) && old(purchases)[ref].status != Completed &&
        forall other | other in old(purchases) && other != ref :: old(purchases)[other].eventId != Some(event)
      ensures !fulfilled ==> Now() == old(Now())
      ensures fulfilled ==>
        var p := old(purchases)[ref];
        purchases == old(purchases)[ref := Purchase(p.user, p.tokens, Completed, Some(event))] &&
        Balance(p.user) == old(Balance(p.user)) + p.tokens &&
        (forall u | u != p.user :: Balance(u) == old(Balance(u))) && p.user in accounts &&
        accounts[p.user].lifetimePurchased ==
          p.tokens + (if p.user in old(accounts) then old(accounts)[p.user].lifetimePurchased else 0) &&
        accounts[p.user].lifetimeEarned ==
          (if p.user in old(accounts) then old(accounts)[p.user].lifetimeEarned else 0) &&
        ledger == old(ledger) + [Row(p.user, p.tokens, Bought, Balance(p.user), Some(ref), None)]
      ensures fulfilled ==> ref in purchases && purchases[ref].status == Completed
    {
      ApplyReplays(Now(), DoFulfil(ref, event));
      if ref !in purchases { return false; }
      var purchase := purchases[ref];
      if purchase.status == Completed { return false; }
      if exists other :: other in purchases && other != ref && purchases[other].eventId == Some(event) { return false; }
      purchases := purchases[ref := purchase.(status := Completed, eventId := Some(event))];
      Credit(purchase.user, purchase.tokens, 0, purchase.tokens);
      var balance := accounts[purchase.user].balance;
      ledger := ledger + [Row(purchase.user, purchase.tokens, Bought, balance, Some(ref), None)];
      fulfilled := true;
    }

    /** A pending purchase of what the package holds now, if it is on sale and the reference is new. */
    method CreatePurchase(user: UserId, packageId: PackageId, ref: PurchaseRef) returns (outcome: OrderOutcome)
      requires Valid()
      modifies this`purchases
      ensures outcome == NotAvailable <==> !(packageId in packages && packages[packageId].active)
      ensures outcome == DuplicateReference <==> outcome != NotAvailable && ref in old(purchases)
      ensures Valid()
      ensures Now() == if outcome == Ordered then OrderTokens(old(Now()), ref, user, packages[packageId].tokens)
                       else old(Now())
      ensures outcome == Ordered ==>
        purchases == old(purchases)[ref := Purchase(user, packages[packageId].tokens, Pending, None)]
    {
      if packageId !in packages || !packages[packageId].active { return NotAvailable; }
      if ref in purchases { return DuplicateReference; }
      ApplyReplays(Now(), DoOrder(ref, user, packages[packageId].tokens));
      purchases := purchases[ref := Purchase(user, packages[packageId].tokens, Pending, None)];
      outcome := Ordered;
    }

    method Adjust(user: UserId, delta: int, note: string) returns (outcome: Outcome)
      requires Valid()
      modifies this
      ensures Valid() && Now() == Ledger.Adjust(old(Now()), user, delta, note)
      ensures match AdjustError(old(Now()), user, delta, note)
        case Some(error) => outcome == Refused(error)
        case None =>
          outcome == Done(BalanceOf(Now(), user)) && BalanceOf(Now(), user) == BalanceOf(old(Now()), user) + delta
      ensures outcome == Refused(InvalidAmount) <==> delta == 0 || forall c | c in note :: IsSpace(c)
      ensures outcome == Refused(InsufficientFunds) <==>
              delta < 0 && (exists c :: c in note && !IsSpace(c)) &&
              (user !in old(accounts) || old(accounts)[user].balance < -delta)
      ensures outcome.Refused? ==> Now() == old(Now())
      ensures outcome.Done? ==>
        outcome.balance == Balance(user) == old(Balance(user)) + delta &&
        (forall u | u != user :: Balance(u) == old(Balance(u))) &&
        accounts == old(accounts)[user := if user in old(accounts)
                                          then old(accounts)[user].(balance := Balance(user))
                                          else Account(delta, 0, 0)] &&
        ledger == old(ledger) + [Row(user, delta, Adjustment, Balance(user), None, None)]
    {
      ApplyReplays(Now(), DoAdjust(user, delta, note));
      if delta == 0 || IsBlank(note) { return Refused(InvalidAmount); }
      if delta > 0 {
        Credit(user, delta, 0, 0);
      } else {
        var ok := Debit(user, -delta);
        if !ok { return Refused(InsufficientFunds); }
      }
      ledger := ledger + [Row(user, delta, Adjustment, accounts[user].balance, None, None)];
      outcome := Done(accounts[user].balance);
    }
  }
}
