/**
 The token economy as values: cached balances beside an append-only ledger. Every operation here
 is one database transaction; a transaction that throws leaves the books as they were.
 */
module Ledger {
  import opened Common

  type PurchaseRef = nat     // the checkout session
  type EventId = nat         // the webhook event
  type CampaignId = nat

  datatype Kind = Bought | TipSent | TipReceived | Adjustment | Promo

  datatype Row = Row(user: UserId, delta: int, kind: Kind, balanceAfter: int,
                     purchase: Option<PurchaseRef>, campaign: Option<CampaignId>)

  datatype Account = Account(balance: int, lifetimeEarned: int, lifetimePurchased: int)

  datatype Status = Pending | Completed | Failed

  datatype Purchase = Purchase(user: UserId, tokens: nat, status: Status, eventId: Option<EventId>)

  datatype Tip = Tip(from: UserId, to: UserId, tokens: nat)

  datatype Books = Books(accounts: map<UserId, Account>, ledger: seq<Row>,
                         purchases: map<PurchaseRef, Purchase>, tips: seq<Tip>)

  const EMPTY_BOOKS: Books := Books(map[], [], map[], [])

  datatype TokenError = InsufficientFunds | InvalidAmount | SelfTip

  function BalanceOf(b: Books, u: UserId): int { if u in b.accounts then b.accounts[u].balance else 0 }
  function EarnedOf(b: Books, u: UserId): int { if u in b.accounts then b.accounts[u].lifetimeEarned else 0 }
  function PurchasedOf(b: Books, u: UserId): int { if u in b.accounts then b.accounts[u].lifetimePurchased else 0 }

  // ---------------------------------------------------------------------------------------
  // Movements
  // ---------------------------------------------------------------------------------------

  /** The upsert behind every credit: a first credit creates the account. */
  function Credited(accounts: map<UserId, Account>, u: UserId, amount: nat, earned: nat, purchased: nat):
    map<UserId, Account>
  {
    var a := if u in accounts then accounts[u] else Account(0, 0, 0);
    accounts[u := Account(a.balance + amount, a.lifetimeEarned + earned, a.lifetimePurchased + purchased)]
  }

  function Credit(b: Books, u: UserId, amount: nat, earned: nat, purchased: nat): Books {
    b.(accounts := Credited(b.accounts, u, amount, earned, purchased))
  }

  /** The guard of the conditional update; no account and too little balance look the same. */
  predicate CanDebit(b: Books, u: UserId, amount: nat) {
    u in b.accounts && b.accounts[u].balance >= amount
  }

  function Debit(b: Books, u: UserId, amount: nat): Books
    requires CanDebit(b, u, amount)
  {
    b.(accounts := b.accounts[u := b.accounts[u].(balance := b.accounts[u].balance - amount)])
  }

  /** One ledger row, stamped with the balance it leaves behind. */
  function Record(b: Books, u: UserId, delta: int, kind: Kind, purchase: Option<PurchaseRef>,
                  campaign: Option<CampaignId>): Books
  {
    b.(ledger := b.ledger + [Row(u, delta, kind, BalanceOf(b, u), purchase, campaign)])
  }

  function CreditAndRecord(b: Books, u: UserId, amount: nat, kind: Kind, earned: nat, purchased: nat,
                           purchase: Option<PurchaseRef>, campaign: Option<CampaignId>): Books
  {
    Record(Credit(b, u, amount, earned, purchased), u, amount, kind, purchase, campaign)
  }

  function DebitAndRecord(b: Books, u: UserId, amount: nat, kind: Kind): Books
    requires CanDebit(b, u, amount)
  {
    Record(Debit(b, u, amount), u, 0 - amount, kind, None, None)
  }

  // ---------------------------------------------------------------------------------------
  // Transactions
  // ---------------------------------------------------------------------------------------

  function TipError(b: Books, from: UserId, to: UserId, tokens: int): Option<TokenError> {
    if from == to then Some(SelfTip)
    else if tokens <= 0 then Some(InvalidAmount)
    else if !CanDebit(b, from, tokens) then Some(InsufficientFunds)
    else None
  }

  function SendTip(b: Books, from: UserId, to: UserId, tokens: int): Books {
    if TipError(b, from, to, tokens).Some? then b
    else
      var paid := DebitAndRecord(b, from, tokens, TipSent);
      CreditAndRecord(paid, to, tokens, TipReceived, tokens, 0, None, None).(tips := b.tips + [Tip(from, to, tokens)])
  }

  /** Another purchase already carries this webhook event: the unique index aborts the update. */
  predicate EventTaken(b: Books, ref: PurchaseRef, event: EventId) {
    exists other :: other in b.purchases && other != ref && b.purchases[other].eventId == Some(event)
  }

  predicate Fulfils(b: Books, ref: PurchaseRef, event: EventId) {
    ref in b.purchases && b.purchases[ref].status != Completed && !EventTaken(b, ref, event)
  }

  function FulfilPurchase(b: Books, ref: PurchaseRef, event: EventId): Books {
    if !Fulfils(b, ref, event) then b
    else
      var p := b.purchases[ref];
      var claimed := b.(purchases := b.purchases[ref := p.(status := Completed, eventId := Some(event))]);
      CreditAndRecord(claimed, p.user, p.tokens, Bought, 0, p.tokens, Some(ref), None)
  }

  /** What trimming removes: white space and line terminators. */
  predicate IsSpace(c: char) {
    '\U{9}' <= c <= '\U{D}' || c == ' ' || c == '\U{A0}' || c == '\U{1680}' || '\U{2000}' <= c <= '\U{200A}' ||
    c == '\U{2028}' || c == '\U{2029}' || c == '\U{202F}' || c == '\U{205F}' || c == '\U{3000}' || c == '\U{FEFF}'
  }

  /** Among the ASCII characters: the blank, and tab to carriage return. */
  lemma AsciiSpaces(c: char)
    requires c as int < 128
    ensures IsSpace(c) <==> c == ' ' || c == '\t' || c == '\n' || c == '\r' || c as int == 11 || c as int == 12
  {
  }

  /** Beyond these: the no-break space, the byte order mark, and the other space and line separators. */
  lemma OtherSpaces(c: char)
    requires c as int >= 128
    ensures IsSpace(c) <==>
      c as int in [0xA0, 0x1680, 0x2000, 0x2001, 0x2002, 0x2003, 0x2004, 0x2005, 0x2006, 0x2007, 0x2008, 0x2009,
                   0x200A, 0x2028, 0x2029, 0x202F, 0x205F, 0x3000, 0xFEFF]
  {
  }

  predicate IsBlank(note: string) { forall c | c in note :: IsSpace(c) }

  function AdjustError(b: Books, u: UserId, delta: int, note: string): Option<TokenError> {
    if delta == 0 || IsBlank(note) then Some(InvalidAmount)
    else if delta < 0 && !CanDebit(b, u, -delta) then Some(InsufficientFunds)
    else None
  }

  function Adjust(b: Books, u: UserId, delta: int, note: string): Books {
    if AdjustError(b, u, delta, note).Some? then b
    else if delta > 0 then CreditAndRecord(b, u, delta, Adjustment, 0, 0, None, None)
    else DebitAndRecord(b, u, -delta, Adjustment)
  }

  /** Reading a balance creates the account on first access. */
  function TouchAccount(b: Books, u: UserId): Books { Credit(b, u, 0, 0, 0) }

  /** The grant transaction of a promotional campaign, past its unique index. */
  function Grant(b: Books, campaign: CampaignId, u: UserId, tokens: nat): Books {
    CreditAndRecord(b, u, tokens, Promo, tokens, 0, None, Some(campaign))
  }

  function OrderTokens(b: Books, ref: PurchaseRef, u: UserId, tokens: nat): Books {
    if ref in b.purchases then b else b.(purchases := b.purchases[ref := Purchase(u, tokens, Pending, None)])
  }

  datatype Op =
    | DoTip(from: UserId, to: UserId, tokens: int)
    | DoFulfil(ref: PurchaseRef, event: EventId)
    | DoAdjust(user: UserId, delta: int, note: string)
    | DoRead(user: UserId)
    | DoGrant(campaign: CampaignId, user: UserId, amount: nat)
    | DoOrder(ref: PurchaseRef, user: UserId, amount: nat)

  function Apply(b: Books, op: Op): Books {
    match op
    case DoTip(from, to, tokens) => SendTip(b, from, to, tokens)
    case DoFulfil(ref, event) => FulfilPurchase(b, ref, event)
    case DoAdjust(u, delta, note) => Adjust(b, u, delta, note)
    case DoRead(u) => TouchAccount(b, u)
    case DoGrant(campaign, u, amount) => Grant(b, campaign, u, amount)
    case DoOrder(ref, u, amount) => OrderTokens(b, ref, u, amount)
  }

  function Execute(b: Books, ops: seq<Op>): Books {
    if ops == [] then b else Apply(Execute(b, ops[..|ops| - 1]), ops[|ops| - 1])
  }
}
