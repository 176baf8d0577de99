/**
 Promotional campaigns: the claim protocol as a transition system.

 A claim reads the campaign, looks for an earlier grant, reserves a slot with a conditional
 update, and then grants in a transaction; a failed grant hands the slot back. Each of these is
 one database statement or transaction, and any number of claims interleave, fail and crash.
*/
module Campaigns {
  import opened Common
  import opened Ledger

  datatype CampaignStatus = Draft | Active | Paused | Ended

  /** `ceiling` is history: the highest cap the campaign has ever had. */
  datatype Campaign = Campaign(tokens: nat, cap: Option<nat>, status: CampaignStatus, issued: int, ceiling: Option<nat>)

  datatype Phase = ReadCampaign | ReadGrant | Reserve | Granting | Releasing | Finished | SlotLost

  datatype Run = Run(campaign: CampaignId, user: UserId, phase: Phase, cap: Option<nat>, amount: nat, granted: bool)

  datatype State = State(campaigns: map<CampaignId, Campaign>, grants: set<(CampaignId, UserId)>,
                         books: Books, runs: map<nat, Run>)

  datatype Event =
    | Begin(run: nat, campaign: CampaignId, user: UserId)
    | Advance(run: nat)
    | GrantFails(run: nat)         // the transaction threw and was rolled back
    | ReleaseFails(run: nat)       // the slot could not be handed back; only a warning is logged
    | Crash(run: nat)              // or a statement that throws before it has had any effect
    | Create(campaign: CampaignId, tokens: nat, cap: Option<nat>)
    | SetStatus(campaign: CampaignId, status: CampaignStatus)
    | SetCap(campaign: CampaignId, cap: Option<nat>)
    | Other(op: Op)                // any other movement of tokens

  const MAX_SAFE_INTEGER: nat := 0x1F_FFFF_FFFF_FFFF

  /** What a claim compares the counter with: the cap it read, not the cap in force. */
  function Limit(run: Run): nat { if run.cap.Some? then run.cap.value else MAX_SAFE_INTEGER }

  /** The WHERE clause of the reservation. */
  predicate CanReserve(s: State, run: Run) {
    run.campaign in s.campaigns &&
    var c := s.campaigns[run.campaign];
    c.status == Active &&
    (c.cap.None? || c.issued < Limit(run))
  }

  /** What the next statement of a claim answers. */
  predicate Reply(s: State, run: Run) {
    match run.phase
    case ReadCampaign => run.campaign in s.campaigns
    case ReadGrant => (run.campaign, run.user) !in s.grants
    case Reserve => CanReserve(s, run)
    case Granting => (run.campaign, run.user) !in s.grants
    case _ => true
  }

  function NextRun(run: Run, reply: bool): Run {
    match run.phase
    case ReadCampaign => run.(phase := if reply then ReadGrant else Finished)
    case ReadGrant => run.(phase := if reply then Reserve else Finished)
    case Reserve => run.(phase := if reply then Granting else Finished)
    case Granting => run.(phase := if reply then Finished else Releasing, granted := reply)
    case Releasing => run.(phase := Finished)
    case Finished | SlotLost => run
  }

  /** What the first read brings along. */
  function WithTerms(s: State, run: Run): Run {
    if run.phase == ReadCampaign && run.campaign in s.campaigns
    then run.(cap := s.campaigns[run.campaign].cap, amount := s.campaigns[run.campaign].tokens)
    else run
  }

  function AddIssued(campaigns: map<CampaignId, Campaign>, c: CampaignId, n: int): map<CampaignId, Campaign>
    requires c in campaigns
  {
    campaigns[c := campaigns[c].(issued := campaigns[c].issued + n)]
  }

  function CampaignsAfter(s: State, run: Run): map<CampaignId, Campaign> {
    if run.campaign !in s.campaigns then s.campaigns
    else if run.phase == Reserve && Reply(s, run) then AddIssued(s.campaigns, run.campaign, 1)
    else if run.phase == Releasing && s.campaigns[run.campaign].issued > 0 then AddIssued(s.campaigns, run.campaign, -1)
    else s.campaigns
  }

  predicate Grants(s: State, run: Run) { run.phase == Granting && Reply(s, run) }

  function AdvanceRun(s: State, r: nat): State
    requires r in s.runs
  {
    var run := s.runs[r];
    s.(campaigns := CampaignsAfter(s, run),
       grants := if Grants(s, run) then s.grants + {(run.campaign, run.user)} else s.grants,
       books := if Grants(s, run) then Grant(s.books, run.campaign, run.user, run.amount) else s.books,
       runs := s.runs[r := NextRun(WithTerms(s, run), Reply(s, run))])
  }

  predicate HoldsSlot(run: Run) { run.phase == Granting || run.phase == Releasing || run.phase == SlotLost }

  /** A crash while a slot is reserved loses the slot; at any other point it loses nothing. */
  function Crashed(run: Run): Run {
    run.(phase := if HoldsSlot(run) then SlotLost else Finished)
  }

  /** The higher of two caps, where no cap is the highest. */
  function Higher(a: Option<nat>, b: Option<nat>): Option<nat> {
    if a.None? || b.None? then None else if a.value < b.value then b else a
  }

  function Next(s: State, e: Event): State {
    match e
    case Begin(r, c, u) =>
      if r in s.runs then s else s.(runs := s.runs[r := Run(c, u, ReadCampaign, None, 0, false)])
    case Advance(r) => if r in s.runs then AdvanceRun(s, r) else s
    case GrantFails(r) =>
      if r in s.runs && s.runs[r].phase == Granting then s.(runs := s.runs[r := s.runs[r].(phase := Releasing)]) else s
    case ReleaseFails(r) =>
      if r in s.runs && s.runs[r].phase == Releasing then s.(runs := s.runs[r := s.runs[r].(phase := SlotLost)]) else s
    case Crash(r) => if r in s.runs then s.(runs := s.runs[r := Crashed(s.runs[r])]) else s
    case Create(c, tokens, cap) =>
      if c in s.campaigns then s
      else s.(campaigns := s.campaigns[c := Campaign(tokens, cap, Draft, 0, cap)])
    case SetStatus(c, status) =>
      if c in s.campaigns && s.campaigns[c].status != Ended
      then s.(campaigns := s.campaigns[c := s.campaigns[c].(status := status)])
      else s
    case SetCap(c, cap) =>
      if c in s.campaigns
      then
        var ceiling := Higher(s.campaigns[c].ceiling, cap);
        s.(campaigns := s.campaigns[c := s.campaigns[c].(cap := cap, ceiling := ceiling)])
      else s
    case Other(op) => if op.DoGrant? then s else s.(books := Apply(s.books, op))
  }

  function Execute(s: State, events: seq<Event>): State {
    if events == [] then s else Next(Execute(s, events[..|events| - 1]), events[|events| - 1])
  }

  const NOTHING: State := State(map[], {}, EMPTY_BOOKS, map[])

  lemma {:induction false} ExecuteConcat(s: State, a: seq<Event>, b: seq<Event>)
    ensures Execute(s, a + b) == Execute(Execute(s, a), b)
  {
    if b == [] {
      assert a + b == a;
    } else {
      ExecuteConcat(s, a, b[..|b| - 1]);
      assert (a + b)[..|a + b| - 1] == a + b[..|b| - 1];
    }
  }

  lemma ExecuteOneMore(s: State, events: seq<Event>, e: Event)
    ensures Execute(s, events + [e]) == Next(Execute(s, events), e)
  {
    assert (events + [e])[..|events|] == events;
  }
}
