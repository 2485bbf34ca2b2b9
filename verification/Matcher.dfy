// The matchmaker object: its queues, its map and the status map are changed step
// by step, and each of its methods does exactly what the function of module
// MatchSpec says.  Here nothing else runs while a method runs.
module Matchmaker {
  import opened Basics
  import opened Online
  import opened BlockQueues
  import opened MatchSpec
  import opened MatchProofs
  import opened MatchLoopProofs
  import opened MatchPasses

  class Matcher {
    const online: OnlineManager
    const incoming: seq<BlockQueue<Req>>
    var pending: Queues
    var reqs: map<UserId, Meta>
    var lastReq: nat
    var lastRoom: nat
    var results: seq<Pairing>
    ghost var issued: map<nat, Req>
    ghost var withdrawn: set<nat>

    ghost predicate Valid()
      reads this, incoming
    {
      && |incoming| == TIERS
      && incoming[0] != incoming[1] && incoming[0] != incoming[2] && incoming[1] != incoming[2]
      && !incoming[0].shut && !incoming[1].shut && !incoming[2].shut
    }

    ghost function Incoming(): Queues
      requires Valid()
      reads this, incoming
    {
      var q := [incoming[0].queue, incoming[1].queue, incoming[2].queue];
      assert |q| == TIERS;
      q
    }

    ghost function State(): MState
      requires Valid()
      reads this, online, incoming
    {
      MState(online.users, reqs, Incoming(), pending, lastReq, lastRoom, results, issued, withdrawn)
    }

    constructor (onlineMgr: OnlineManager)
      ensures Valid() && online == onlineMgr && fresh(incoming)
      ensures State() == EmptyMatcher(onlineMgr.users)
    {
      online := onlineMgr;
      var q0 := new BlockQueue<Req>();
      var q1 := new BlockQueue<Req>();
      var q2 := new BlockQueue<Req>();
      incoming := [q0, q1, q2];
      pending := [[], [], []];
      reqs := map[];
      lastReq := 0;
      lastRoom := 1000;
      results := [];
      issued := map[];
      withdrawn := {};
    }

    // ----- requests of the users -----

    // `leaves`: another thread takes the user offline in the middle.
    method Enqueue(u: UserId, score: int, now: Millis, leaves: bool) returns (ok: bool)
      requires Valid()
      modifies this, online, incoming
      ensures Valid() && (State(), ok) == MatchSpec.Enqueue(old(State()), u, score, now, leaves)
      ensures ok ==> forall t: nat {:trigger InBand(score, t)} :: t < TIERS && InBand(score, t) ==>
        Incoming() == old(Incoming())[t := old(Incoming()[t]) + [Req(u, score, now, lastReq, false)]]
    {
      var status := online.GetStatus(u);
      if status != HallIdle {
        return false;
      }
      lastReq := lastReq + 1;
      var req := Req(u, score, now, lastReq, false);
      if u in reqs {
        return false;
      }
      reqs := reqs[u := Meta(TierOf(score), req.id, now)];
      if leaves {
        online.UserOffline(u);
      }
      ok := online.SetStatus(u, Matching);
      if !ok {
        reqs := reqs - {u};
        assert reqs == old(reqs);
        return false;
      }
      PushRequest(req);
    }

    method PushRequest(req: Req)
      requires Valid()
      modifies this`issued, incoming
      ensures Valid()
      ensures
        var m, t := old(State()), TierOf(req.score);
        State() == m.(incoming := m.incoming[t := m.incoming[t] + [req]], issued := m.issued[req.id := req])
    {
      var tier := TierOf(req.score);
      issued := issued[req.id := req];
      incoming[tier].Push(req);
      assert Incoming() == old(Incoming())[tier := old(Incoming()[tier]) + [req]];
    }

    method Cancel(u: UserId) returns (erased: bool)
      requires Valid()
      modifies this, online
      ensures Valid() && (State(), erased) == MatchSpec.Cancel(old(State()), u)
    {
      erased := u in reqs;
      if erased {
        withdrawn := withdrawn + {reqs[u].id};
        reqs := reqs - {u};
      }
      var isOnline := online.IsOnline(u);
      if erased && isOnline {
        var set_ := online.SetStatus(u, HallIdle);
      }
    }

    method OnDisconnect(u: UserId)
      requires Valid()
      modifies this, online
      ensures Valid() && State() == MatchSpec.Cancel(old(State()), u).0
    {
      var erased := Cancel(u);
    }

    // ----- pieces of the loop -----

    method IsRequestValid(r: Req) returns (ok: bool)
      requires Valid()
      ensures ok == IsLive(State(), r)
    {
      if r.cancelled {
        return false;
      }
      var isOnline := online.IsOnline(r.user);
      if !isOnline {
        return false;
      }
      var status := online.GetStatus(r.user);
      if status != Matching {
        return false;
      }
      return r.user in reqs && reqs[r.user].id == r.id;
    }

    method PopFront(t: nat) returns (r: Req)
      requires Valid() && t < TIERS && pending[t] != []
      modifies this`pending
      ensures Valid() && r == old(pending[t][0])
      ensures State() == old(State()).(pending := old(pending)[t := old(pending[t])[1..]])
    {
      r := pending[t][0];
      pending := pending[t := pending[t][1..]];
    }

    method DiscardInvalidFront(t: nat) returns (dropped: bool)
      requires Valid() && t < TIERS
      modifies this`pending
      ensures Valid()
      ensures dropped <==> old(pending[t]) != [] && !IsLive(old(State()), old(pending[t][0]))
      ensures State() == old(State()).(pending := if dropped then old(pending)[t := old(pending[t])[1..]] else old(pending))
    {
      if pending[t] == [] {
        return false;
      }
      var ok := IsRequestValid(pending[t][0]);
      if ok {
        return false;
      }
      var r := PopFront(t);
      return true;
    }

    method DiscardInvalidFronts(t: nat)
      requires Valid() && t < TIERS
      modifies this`pending
      ensures Valid()
      ensures State() == old(State()).(pending := old(pending)[t := DropDead(old(State()), old(pending[t]))])
    {
      ghost var m := State();
      var more := true;
      while more
        invariant Valid()
        invariant State() == m.(pending := m.pending[t := pending[t]])
        invariant DropDead(m, pending[t]) == DropDead(m, m.pending[t])
        invariant !more ==> pending[t] == DropDead(m, m.pending[t])
        decreases |pending[t]|, more
      {
        SameDrop(m, State(), pending[t]);
        more := DiscardInvalidFront(t);
      }
    }

    method FinalizeMatch(p1: Req, p2: Req)
      requires Valid()
      modifies this`reqs, this`lastRoom, this`results, online
      ensures Valid() && State() == Finalize(old(State()), p1, p2)
    {
      reqs := reqs - {p1.user};
      reqs := reqs - {p2.user};
      var set1 := online.SetStatus(p1.user, InRoom);
      var set2 := online.SetStatus(p2.user, InRoom);
      lastRoom := lastRoom + 1;
      results := results + [Pairing(lastRoom, p1, p2)];
    }

    // ----- the passes -----

    method DrainTier(t: nat)
      requires Valid() && t < TIERS
      modifies this`pending, incoming[t]
      ensures Valid()
      ensures pending == old(pending)[t := old(pending[t]) + old(incoming[t].queue)]
      ensures incoming[t].queue == []
    {
      ghost var all := old(pending[t]) + old(incoming[t].queue);
      var more := true;
      while more
        invariant Valid() && pending == old(pending)[t := pending[t]]
        invariant pending[t] + incoming[t].queue == all
        invariant !more ==> incoming[t].queue == []
        decreases |incoming[t].queue|, more
      {
        ghost var before := incoming[t].queue;
        var req, naps := incoming[t].TimedPop([]);
        assert before + [] == before;
        more := req.Some?;
        if more {
          pending := pending[t := pending[t] + [req.value]];
        }
      }
      assert pending[t] == all;
    }

    method DrainIncomingRequests()
      requires Valid()
      modifies this`pending, incoming
      ensures Valid() && State() == Drain(old(State()))
    {
      DrainTier(0);
      DrainTier(1);
      DrainTier(2);
      assert pending == Drain(old(State())).pending;
    }

    method TryMatchSameTier(t: nat)
      requires Valid() && t < TIERS && MatchInv(State())
      modifies this`pending, this`reqs, this`lastRoom, this`results, online
      ensures Valid() && State() == SameTier(old(State()), t)
    {
      var more := true;
      while more
        invariant Valid()
        invariant more ==> MatchInv(State()) && SameTier(State(), t) == SameTier(old(State()), t)
        invariant !more ==> State() == SameTier(old(State()), t)
        decreases more, |pending[t]|
      {
        more := MatchRound(t);
      }
    }

    // One round of the pass; it tells whether there is anything left to do.
    method MatchRound(t: nat) returns (more: bool)
      requires Valid() && t < TIERS && MatchInv(State())
      modifies this`pending, this`reqs, this`lastRoom, this`results, online
      ensures Valid()
      ensures more ==>
        MatchInv(State()) && SameTier(State(), t) == SameTier(old(State()), t) && |pending[t]| < |old(pending[t])|
      ensures !more ==> State() == SameTier(old(State()), t)
    {
      DropIsHarmless(State(), t);
      DiscardInvalidFronts(t);
      if |pending[t]| < 2 {
        ShortQueueIsDone(State(), t);
        return false;
      }
      NextPair(State(), t);
      more := MatchFront(t);
    }

    // One round over a queue with a live front: pairs it with the next live
    // request, or finds that there is none.
    method MatchFront(t: nat) returns (paired: bool)
      requires Valid() && t < TIERS && MatchInv(State()) && pending[t] != [] && IsLive(State(), pending[t][0])
      modifies this`pending, this`reqs, this`lastRoom, this`results, online
      ensures Valid()
      ensures paired <==> Rest(old(State()), t) != []
      ensures State() ==
        if paired then AfterPair(old(State()), t)
        else old(State()).(pending := old(pending)[t := [old(pending[t][0])]])
    {
      ghost var m := State();
      var first := PopFront(t);
      SameDrop(m, State(), pending[t]);
      DiscardInvalidFronts(t);
      if pending[t] == [] {
        assert [first] + pending[t] == [first];
        pending := pending[t := [first] + pending[t]];
        assert pending == m.pending[t := [first]];
        return false;
      }
      FirstTwo(m, t);
      var second := PopFront(t);
      assert State() == m.(pending := m.pending[t := Rest(m, t)[1..]]);
      FinalizeIfValid(first, second);
      return true;
    }

    // The requests were valid when they were taken; only while other threads run
    // can they have become invalid since.
    method FinalizeIfValid(p1: Req, p2: Req)
      requires Valid() && IsLive(State(), p1) && IsLive(State(), p2)
      modifies this`reqs, this`lastRoom, this`results, online
      ensures Valid() && State() == Finalize(old(State()), p1, p2)
    {
      var ok1 := IsRequestValid(p1);
      if !ok1 {
        assert false;
      }
      var ok2 := IsRequestValid(p2);
      if !ok2 {
        assert false;
      }
      FinalizeMatch(p1, p2);
    }

    method DiscardBoth(t: nat)
      requires Valid() && t < TIERS - 1
      modifies this`pending
      ensures Valid()
      ensures
        var m := old(State());
        State() == m.(pending := m.pending[t := DropDead(m, m.pending[t])][t + 1 := DropDead(m, m.pending[t + 1])])
    {
      ghost var m := State();
      DiscardInvalidFronts(t);
      SameDrop(m, State(), pending[t + 1]);
      DiscardInvalidFronts(t + 1);
    }

    method TryMatchCrossTier(t: nat, now: Millis)
      requires Valid() && t < TIERS - 1 && MatchInv(State())
      modifies this`pending, this`reqs, this`lastRoom, this`results, online
      ensures Valid() && State() == CrossTier(old(State()), t, now)
      ensures CrossOutcome(old(State()), State(), t, now)
    {
      CrossTierDecides(State(), t, now);
      FrontsAreLive(State(), t);
      DiscardBoth(t);
      if pending[t] == [] || pending[t + 1] == [] {
        return;
      }
      var allowed := ShouldAllowCrossTier(pending[t][0], pending[t + 1][0], now);
      if !allowed {
        return;
      }
      MatchFronts(t);
    }

    method ShouldAllowCrossTier(left: Req, right: Req, now: Millis) returns (ok: bool)
      ensures ok <==> now - left.time >= 30000 || now - right.time >= 30000
    {
      return now - left.time >= TIMEOUT || now - right.time >= TIMEOUT;
    }

    method MatchFronts(t: nat)
      requires Valid() && t < TIERS - 1 && pending[t] != [] && pending[t + 1] != []
      requires IsLive(State(), pending[t][0]) && IsLive(State(), pending[t + 1][0])
      modifies this`pending, this`reqs, this`lastRoom, this`results, online
      ensures Valid()
      ensures
        var m := old(State());
        var rest := m.pending[t := m.pending[t][1..]][t + 1 := m.pending[t + 1][1..]];
        State() == Finalize(m.(pending := rest), m.pending[t][0], m.pending[t + 1][0])
    {
      var p1 := PopFront(t);
      var p2 := PopFront(t + 1);
      FinalizeIfValid(p1, p2);
    }

    method MatchLoopBody(now0: Millis, now1: Millis)
      requires Valid() && MatchInv(State())
      modifies this`pending, this`reqs, this`lastRoom, this`results, online, incoming
      ensures Valid() && State() == LoopBody(old(State()), now0, now1) && MatchInv(State())
    {
      DrainKeepsInv(State());
      DrainIncomingRequests();
      SameTierKeepsInv(State(), 0);
      TryMatchSameTier(0);
      SameTierKeepsInv(State(), 1);
      TryMatchSameTier(1);
      SameTierKeepsInv(State(), 2);
      TryMatchSameTier(2);
      CrossTierKeepsInv(State(), 0, now0);
      TryMatchCrossTier(0, now0);
      CrossTierKeepsInv(State(), 1, now1);
      TryMatchCrossTier(1, now1);
    }
  }

  // A user leaves: the status map first, then the matchmaker.
  method UserLeaves(matcher: Matcher, u: UserId)
    requires matcher.Valid()
    modifies matcher, matcher.online
    ensures matcher.Valid() && matcher.State() == Disconnect(old(matcher.State()), u)
  {
    matcher.online.UserOffline(u);
    matcher.OnDisconnect(u);
  }
}
