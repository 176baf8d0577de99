/** `tryMatch` from end to end: the search in the queue, and the pairing protocol with its result. */
module Matchmaker {
  import opened Common
  import opened Matchmaking
  import opened QueueRepository
  import opened SharedQueue
  import P = Pairing
  import PS = PairingSafety
  import I = QueueIndex
  import N = PairingNode

  /** The store after the first `k` events is the store at any earlier point after the events since. */
  lemma SinceThen(origin: P.State, history: seq<P.Event>, from: nat, k: nat)
    requires from <= k <= |history|
    ensures P.Execute(origin, history[..k]) ==
            P.Execute(P.Execute(origin, history[..from]), history[from..][..k - from])
  {
    assert history[..k] == history[..from] + history[from..][..k - from];
    P.ExecuteConcat(origin, history[..from], history[from..][..k - from]);
  }

  /** At the very event with which a run takes a user out of the queue, the index loses them too. */
  lemma GoneWhenLeaving(ix: I.Index, origin: P.State, history: seq<P.Event>, from: nat, k: nat, ds: Details,
                        phase: P.Phase, user: UserId)
    requires from <= k < |history| && N.LeavesAt(origin, history, k, ds.run, phase, user)
    ensures IsGone(FollowAll(ix, P.Execute(origin, history[..from]), history[from..][..k + 1 - from], ds), user,
                   if phase == P.LeaveSeeker then ds.own.country else ds.own.partnerCountry)
  {
    var s, since := P.Execute(origin, history[..from]), history[from..][..k + 1 - from];
    var front := since[..|since| - 1];
    assert front == history[from..][..k - from] && since[|since| - 1] == history[k];
    SinceThen(origin, history, from, k);
    var before := FollowAll(ix, s, front, ds);
    LeavingIsThorough(before, user, ds.own.country);
    LeavingIsThorough(before, user, ds.own.partnerCountry);
  }

  class Matchmaker {
    const store: N.SharedStore
    const queue: Repository

    constructor (store: N.SharedStore, queue: Repository)
      ensures this.store == store && this.queue == queue
    {
      this.store, this.queue := store, queue;
    }

    /** What the two countries of a pair say about the run's own steps. */
    static function OwnDetails(r: nat, seeker: Candidate, partner: Candidate, others: nat -> Detail): Details {
      Details(r, Detail(seeker, seeker.country, partner.country, false, []), others)
    }

    /** An event since `from` took `user` out of the queue, and at that moment out of the index as well. */
    ghost predicate HasGone(ix: I.Index, from: nat, ds: Details, phase: P.Phase, user: UserId, country: Option<string>)
      reads store
    {
      exists k: nat | from <= k < |store.history| ::
        N.LeavesAt(store.origin, store.history, k, ds.run, phase, user) &&
        IsGone(FollowAll(ix, P.Execute(store.origin, store.history[..from]), store.history[from..][..k + 1 - from], ds),
               user, country)
    }

    /**
     A match that is reported pairs the seeker with somebody else who was waiting; the two were legal
     for each other, each at its own stage, in the snapshots the search read; and each of them left
     the queue, store and index alike, in a step of this run. A seeker who is not queued, or already
     in a match, starts no run. Throughout, store and index agree on who is queued: the index is what
     the search and the events since have made of it.
    */
    method TryMatch(seekerId: UserId, now: int, stages: Ladder, recent: seq<UserId>,
                    r: nat, lockToken: P.Token, others: nat -> seq<P.Event>, details: nat -> Detail)
      returns (result: Option<P.MatchId>, selection: Option<Selection>)
      requires store.Valid() && Linked(store.Now(), queue.Now())
      requires r !in store.runs && forall q | q in store.runs :: store.runs[q].token != lockToken
      requires forall i: nat, e | e in others(i) :: N.NotRun(e, r)
      modifies store, queue
      ensures store.Valid() && old(store.history) <= store.history && Linked(store.Now(), queue.Now())
      ensures seekerId !in old(queue.entries) || seekerId in old(store.occupancy) ==> selection.None?
      ensures selection.None? ==>
                result.None? && store.history == old(store.history) && queue.entries == old(queue.entries)
      ensures selection.Some? ==>
        var entries, partner := old(queue.entries), selection.value.candidate;
        seekerId in entries && partner.userId in entries && entries[partner.userId] == partner &&
        partner.userId != seekerId &&
        partner.userId !in entries[seekerId].excludedUserIds && seekerId !in partner.excludedUserIds &&
        Legal(entries[seekerId].(recentPartnerIds := recent), partner, now, stages, {})
      ensures selection.Some? ==>
        var searched := SearchedIndex(old(queue.Now()), seekerId, now, stages);
        var ds := OwnDetails(r, old(queue.entries)[seekerId], selection.value.candidate, details);
        queue.Now() == FollowAll(searched, old(store.Now()), store.history[|old(store.history)|..], ds)
      ensures result.Some? ==>
        var seeker, partner := old(queue.entries)[seekerId], selection.value.candidate;
        var searched := SearchedIndex(old(queue.Now()), seekerId, now, stages);
        var ds := OwnDetails(r, seeker, partner, details);
        r in store.runs && store.runs[r].paired && store.runs[r].id == result &&
        store.runs[r].seeker == seekerId && store.runs[r].partner == partner.userId &&
        HasGone(searched, |old(store.history)|, ds, P.LeaveSeeker, seekerId, seeker.country) &&
        HasGone(searched, |old(store.history)|, ds, P.LeavePartner, partner.userId, partner.country)
      ensures result.None? ==> forall m | m in store.makers && store.makers[m] == r :: PS.Holders(store.Now(), m) == {}
    {
      NothingDrawnYet(r);
      var busy := seekerId in store.occupancy;
      selection := queue.FindPartner(seekerId, busy, now, stages, recent);
      if selection.None? { return None, None; }
      result := RunAndFollow(r, queue.entries[seekerId], selection.value.candidate, lockToken, others, details);
    }

    /** The run of the protocol, and the index with it. */
    method RunAndFollow(r: nat, seeker: Candidate, partner: Candidate, lockToken: P.Token,
                        others: nat -> seq<P.Event>, details: nat -> Detail)
      returns (result: Option<P.MatchId>)
      requires store.Valid() && Linked(store.Now(), queue.Now())
      requires P.CanSelect(store.Now(), r, seeker.userId, partner.userId, lockToken)
      requires forall i: nat, e | e in others(i) :: N.NotRun(e, r)
      modifies store, queue
      ensures store.Valid() && old(store.history) <= store.history && Linked(store.Now(), queue.Now())
      ensures queue.Now() == FollowAll(old(queue.Now()), old(store.Now()), store.history[|old(store.history)|..],
                                       OwnDetails(r, seeker, partner, details))
      ensures result.Some? ==>
        var ds := OwnDetails(r, seeker, partner, details);
        r in store.runs && store.runs[r].paired && store.runs[r].id == result &&
        store.runs[r].seeker == seeker.userId && store.runs[r].partner == partner.userId &&
        HasGone(old(queue.Now()), |old(store.history)|, ds, P.LeaveSeeker, seeker.userId, seeker.country) &&
        HasGone(old(queue.Now()), |old(store.history)|, ds, P.LeavePartner, partner.userId, partner.country)
      ensures result.None? ==> forall m | m in store.makers && store.makers[m] == r :: PS.Holders(store.Now(), m) == {}
    {
      var ds := OwnDetails(r, seeker, partner, details);
      var from, before := |store.history|, store.Now();
      ghost var index := queue.Now();
      result := store.TryMatch(r, seeker.userId, partner.userId, lockToken, others);
      assert store.history[..from] == old(store.history);
      FollowSince(from, before, ds);
      if result.Some? {
        BothHaveGone(index, from, ds);
      }
    }

    /** The index takes in what the store has seen since its history had length `from`. */
    method FollowSince(from: nat, before: P.State, ds: Details)
      requires store.Valid() && from <= |store.history| && before == P.Execute(store.origin, store.history[..from])
      requires Linked(before, queue.Now())
      modifies queue
      ensures Linked(store.Now(), queue.Now())
      ensures queue.Now() == FollowAll(old(queue.Now()), before, store.history[from..], ds)
    {
      NowSince(before, from);
      FollowAllKeepsLinked(before, queue.Now(), store.history[from..], ds);
      CatchUp(before, store.history[from..], ds);
    }

    /** The store is what the events since an earlier point have made of it as it was then. */
    lemma NowSince(before: P.State, from: nat)
      requires store.Valid() && from <= |store.history| && before == P.Execute(store.origin, store.history[..from])
      ensures store.Now() == P.Execute(before, store.history[from..])
    {
      SinceThen(store.origin, store.history, from, |store.history|);
      assert store.history[..|store.history|] == store.history;
      assert store.history[from..][..|store.history| - from] == store.history[from..];
    }

    /** A run that has not begun has drawn no id. */
    lemma NothingDrawnYet(r: nat)
      requires store.Valid() && r !in store.runs
      ensures forall m | m in store.makers :: store.makers[m] != r
    {
      PS.InvAlways(store.origin, store.history);
      assert store.Now().makers == store.makers && store.Now().runs == store.runs;
    }

    lemma BothHaveGone(ix: I.Index, from: nat, ds: Details)
      requires store.BothLeft(ds.run, from)
      ensures HasGone(ix, from, ds, P.LeaveSeeker, store.runs[ds.run].seeker, ds.own.country)
      ensures HasGone(ix, from, ds, P.LeavePartner, store.runs[ds.run].partner, ds.own.partnerCountry)
    {
      var run := store.runs[ds.run];
      var k: nat :| from <= k < |store.history| &&
                    N.LeavesAt(store.origin, store.history, k, ds.run, P.LeaveSeeker, run.seeker);
      GoneWhenLeaving(ix, store.origin, store.history, from, k, ds, P.LeaveSeeker, run.seeker);
      var l: nat :| from <= l < |store.history| &&
                    N.LeavesAt(store.origin, store.history, l, ds.run, P.LeavePartner, run.partner);
      GoneWhenLeaving(ix, store.origin, store.history, from, l, ds, P.LeavePartner, run.partner);
    }

    /** The index takes in what has happened, event by event. */
    method CatchUp(before: P.State, events: seq<P.Event>, ds: Details)
      modifies queue
      ensures queue.Now() == FollowAll(old(queue.Now()), before, events, ds)
    {
      var s := before;
      for i := 0 to |events|
        invariant s == P.Execute(before, events[..i])
        invariant queue.Now() == FollowAll(old(queue.Now()), before, events[..i], ds)
      {
        assert events[..i + 1][..i] == events[..i];
        TakeIn(s, events[i], DetailOf(ds, events[i], i));
        s := P.Next(s, events[i]);
      }
      assert events[..|events|] == events;
    }

    method TakeIn(s: P.State, e: P.Event, d: Detail)
      modifies queue
      ensures queue.Now() == Follow(old(queue.Now()), s, e, d)
    {
      match e
      case Join(u) => queue.Join(d.candidate.(userId := u));
      case Leave(u) =>
        if d.expires { queue.Expire(u); } else { queue.Leave(u, d.country); }
      case Select(_, seeker, _, _) =>
        var _ := queue.LoadCandidates(d.shards, seeker);
      case Advance(r) =>
        if r in s.runs {
          if s.runs[r].phase == P.LeaveSeeker {
            queue.Leave(s.runs[r].seeker, d.country);
          } else if s.runs[r].phase == P.LeavePartner {
            queue.Leave(s.runs[r].partner, d.partnerCountry);
          }
        }
      case _ =>
    }
  }
}
