// The passes of the match loop: what they emit, and that they keep the invariant.
module MatchLoopProofs {
  import opened Basics
  import opened MatchSpec
  import opened MatchProofs

  // ----- live requests of a queue -----

  // Exactly the live requests, in the order of the queue.
  lemma {:induction false} LiveIs(m: MState, q: seq<Req>)
    ensures forall r :: r in Live(m, q) <==> r in q && IsLive(m, r)
    ensures Ordered(q) ==> Ordered(Live(m, q))
  {
    if q != [] {
      LiveIs(m, q[1..]);
      assert q == [q[0]] + q[1..];
      if Ordered(q) {
        assert Ordered(q[1..]);
        forall r | r in Live(m, q[1..])
          ensures q[0].id < r.id
        {
          var i := InQueue(q[1..], r);
          assert q[1..][i] == q[i + 1];
        }
      }
    }
  }

  lemma {:induction false} SameLive(m: MState, m': MState, q: seq<Req>)
    requires forall r :: r in q ==> (IsLive(m', r) <==> IsLive(m, r))
    ensures Live(m', q) == Live(m, q)
  {
    if q != [] {
      assert q[0] in q;
      forall r | r in q[1..]
        ensures IsLive(m', r) <==> IsLive(m, r)
      {
        assert r in q;
      }
      SameLive(m, m', q[1..]);
    }
  }

  lemma LiveUsersDiffer(m: MState, live: seq<Req>, i: nat, j: nat)
    requires Ordered(live) && i < j < |live| && Current(m.reqs, live[i]) && Current(m.reqs, live[j])
    ensures live[i].user != live[j].user
  {
  }

  // ----- what a pass within a tier emits -----

  function Couple(live: seq<Req>, lastRoom: nat, k: nat): Pairing
    requires 2 * k + 1 < |live|
  {
    Pairing(lastRoom + 1 + k, live[2 * k], live[2 * k + 1])
  }

  // The consecutive pairs and nothing else.
  lemma {:induction false} PassEmitsPairs(m: MState, live: seq<Req>)
    ensures |PairUp(m, live).results| == |m.results| + |live| / 2
    ensures PairUp(m, live).results[..|m.results|] == m.results
    ensures forall k :: 0 <= k < |live| / 2 ==> PairUp(m, live).results[|m.results| + k] == Couple(live, m.lastRoom, k)
    decreases |live|
  {
    if |live| >= 2 {
      var m1 := Finalize(m, live[0], live[1]);
      PassEmitsPairs(m1, live[2..]);
      var rs := PairUp(m, live).results;
      assert rs[..|m.results|] == rs[..|m1.results|][..|m.results|] == m.results;
      forall k | 0 <= k < |live| / 2
        ensures rs[|m.results| + k] == Couple(live, m.lastRoom, k)
      {
        if k == 0 {
          assert rs[|m.results|] == rs[..|m1.results|][|m.results|];
        } else {
          assert rs[|m1.results| + (k - 1)] == Couple(live[2..], m1.lastRoom, k - 1);
        }
      }
    }
  }

  // Nothing else changes but the entries and statuses of those paired up.
  lemma {:induction false} PairUpFrame(m: MState, live: seq<Req>)
    ensures
      var m' := PairUp(m, live);
      && m'.pending == m.pending && m'.incoming == m.incoming && m'.lastReq == m.lastReq
      && m'.issued == m.issued && m'.withdrawn == m.withdrawn
      && m'.reqs.Keys <= m.reqs.Keys && (forall u :: u in m'.reqs ==> m'.reqs[u] == m.reqs[u])
    decreases |live|
  {
    if |live| >= 2 {
      PairUpFrame(Finalize(m, live[0], live[1]), live[2..]);
    }
  }

  // ----- pairing up keeps the invariant -----

  // Those who leave the queue in this pass.
  function Leaving(live: seq<Req>): set<UserId>
    decreases |live|
  {
    if |live| < 2 then {} else {live[0].user, live[1].user} + Leaving(live[2..])
  }

  lemma {:induction false} LeaveOrStay(live: seq<Req>, i: nat)
    requires i < |live|
    ensures live[i].user in Leaving(live) || live[i] in Leftover(live)
    decreases |live|
  {
    if |live| >= 2 && i >= 2 {
      LeaveOrStay(live[2..], i - 2);
    }
  }

  predicate HasUser(live: seq<Req>, u: UserId) {
    exists i :: 0 <= i < |live| && live[i].user == u
  }

  // The requests of a pass: live, in order, and older than the rest of the tier.
  predicate InHand(m: MState, r: Req, t: nat) {
    Issued(m.issued, r) && Current(m.reqs, r) && r.user in m.online && TierOf(r.score) == t
  }

  predicate YoungerThanAll(live: seq<Req>, e: Meta) {
    forall i :: 0 <= i < |live| ==> live[i].id < e.id
  }

  predicate Batch(m: MState, live: seq<Req>, t: nat) {
    && Ordered(live)
    && (forall i :: 0 <= i < |live| ==> InHand(m, live[i], t))
    && (forall u {:trigger HasUser(live, u)} :: u in m.reqs && m.reqs[u].tier == t && !HasUser(live, u) ==> YoungerThanAll(live, m.reqs[u]))
  }

  lemma BatchFront(m: MState, live: seq<Req>, t: nat)
    requires Batch(m, live, t) && |live| >= 2
    ensures live[0].user != live[1].user && Next(m, live[0], live[1]) && Next(m, live[1], live[0])
  {
    assert InHand(m, live[0], t) && InHand(m, live[1], t);
    LiveUsersDiffer(m, live, 0, 1);
    forall u | u in m.reqs && u != live[0].user && u != live[1].user && m.reqs[u].tier == t
      ensures live[1].id < m.reqs[u].id
    {
      if HasUser(live, u) {
        var i :| 0 <= i < |live| && live[i].user == u;
        assert InHand(m, live[i], t);
      } else {
        assert YoungerThanAll(live, m.reqs[u]);
      }
    }
  }

  lemma BatchRest(m: MState, live: seq<Req>, t: nat)
    requires Batch(m, live, t) && |live| >= 2
    ensures Batch(Finalize(m, live[0], live[1]), live[2..], t)
  {
    var m', rest := Finalize(m, live[0], live[1]), live[2..];
    assert InHand(m, live[0], t) && InHand(m, live[1], t);
    forall i | 0 <= i < |rest|
      ensures InHand(m', rest[i], t)
    {
      assert InHand(m, live[i + 2], t);
      LiveUsersDiffer(m, live, 0, i + 2);
      LiveUsersDiffer(m, live, 1, i + 2);
    }
    forall u | u in m'.reqs && m'.reqs[u].tier == t && !HasUser(rest, u)
      ensures YoungerThanAll(rest, m'.reqs[u])
    {
      UserInRest(live, u);
      assert YoungerThanAll(live, m.reqs[u]);
    }
  }

  lemma UserInRest(live: seq<Req>, u: UserId)
    requires |live| >= 2
    ensures HasUser(live, u) ==> HasUser(live[2..], u) || u == live[0].user || u == live[1].user
  {
    if HasUser(live, u) {
      var i :| 0 <= i < |live| && live[i].user == u;
      assert i >= 2 ==> live[2..][i - 2].user == u;
    }
  }

  lemma MemberHasUser(live: seq<Req>, r: Req)
    requires r in live
    ensures HasUser(live, r.user)
  {
    var i := InQueue(live, r);
  }

  lemma {:induction false} PairUpKeepsInv(m: MState, live: seq<Req>, t: nat)
    requires InvBut(m, Leaving(live)) && Batch(m, live, t)
    ensures MatchInv(PairUp(m, live))
    decreases |live|
  {
    if |live| >= 2 {
      BatchFront(m, live, t);
      BatchRest(m, live, t);
      FinalizeKeepsInv(m, live[0], live[1], Leaving(live), Leaving(live[2..]));
      PairUpKeepsInv(Finalize(m, live[0], live[1]), live[2..], t);
    }
  }

  lemma LiveBatch(m: MState, t: nat, m1: MState)
    requires MatchInv(m) && t < TIERS && m1 == m.(pending := m1.pending)
    ensures Batch(m1, Live(m, m.pending[t]), t)
  {
    var q, live := m.pending[t], Live(m, m.pending[t]);
    QueueAt(m, t);
    assert Ordered(q) by {
      assert forall i :: 0 <= i < |q| ==> q[i] == Queue(m, t)[i];
    }
    LiveIs(m, q);
    forall i | 0 <= i < |live|
      ensures InHand(m1, live[i], t)
    {
      var r := live[i];
      var j := InQueue(q, r);
      assert Queue(m, t)[j] == r;
    }
    forall u | u in m.reqs && m.reqs[u].tier == t && !HasUser(live, u)
      ensures YoungerThanAll(live, m.reqs[u])
    {
      NotLiveIsIncoming(m, t, u);
      var r := m.issued[m.reqs[u].id];
      var k := InQueue(m.incoming[t], r);
      forall i | 0 <= i < |live|
        ensures live[i].id < m.reqs[u].id
      {
        var j := InQueue(q, live[i]);
        assert Queue(m, t)[j] == live[i] && Queue(m, t)[|q| + k] == r;
      }
    }
  }

  // The request of a waiting user is live.
  lemma EntryIsLive(m: MState, u: UserId)
    requires MatchInv(m) && u in m.reqs
    ensures
      var e := m.reqs[u];
      e.tier < TIERS && e.id in m.issued && m.issued[e.id] in Queue(m, e.tier) && IsLive(m, m.issued[e.id])
      && m.issued[e.id].user == u && m.issued[e.id].id == e.id && TierOf(m.issued[e.id].score) == e.tier
      && m.issued[e.id].time == e.time
  {
    assert Waiting(m, u) && EntryOk(m.issued, m.reqs, u) && IdOk(m.issued, m.lastReq, m.reqs[u].id);
    assert StatusOk(m.online, m.reqs, u);
  }

  lemma NotLiveIsIncoming(m: MState, t: nat, u: UserId)
    requires MatchInv(m) && t < TIERS && u in m.reqs && m.reqs[u].tier == t
    requires !HasUser(Live(m, m.pending[t]), u)
    ensures m.reqs[u].id in m.issued && m.issued[m.reqs[u].id] in m.incoming[t]
    ensures m.issued[m.reqs[u].id].id == m.reqs[u].id
  {
    EntryIsLive(m, u);
    var r, live := m.issued[m.reqs[u].id], Live(m, m.pending[t]);
    LiveIs(m, m.pending[t]);
    if r in live {
      MemberHasUser(live, r);
    }
  }

  lemma SameTierKeepsInv(m: MState, t: nat)
    requires MatchInv(m) && t < TIERS
    ensures MatchInv(SameTier(m, t))
  {
    var q, live := m.pending[t], Live(m, m.pending[t]);
    var m1 := m.(pending := m.pending[t := Leftover(live)]);
    LiveIs(m, q);
    QueueAt(m, t);
    LeftoverInOrder(m, t);
    forall r | r in q && IsLive(m, r) && r.user !in Leaving(live)
      ensures r in Leftover(live)
    {
      var i := InQueue(live, r);
      LeaveOrStay(live, i);
    }
    ReplaceQueue(m, t, Leftover(live), Leaving(live));
    LiveBatch(m, t, m1);
    PairUpKeepsInv(m1, live, t);
  }

  lemma OneInFront(q: seq<Req>, incoming: seq<Req>, r: Req)
    requires Ordered(q + incoming) && r in q
    ensures Ordered([r] + incoming)
  {
    var k := InQueue(q, r);
    var rest := [r] + incoming;
    forall i, j | 0 <= i < j < |rest|
      ensures rest[i].id < rest[j].id
    {
      assert rest[j] == (q + incoming)[|q| + j - 1];
      assert rest[i] == (q + incoming)[if i == 0 then k else |q| + i - 1];
    }
  }

  lemma LeftoverInOrder(m: MState, t: nat)
    requires QueuesOk(m) && t < TIERS
    ensures Ordered(Leftover(Live(m, m.pending[t])) + m.incoming[t])
  {
    var q, live := m.pending[t], Live(m, m.pending[t]);
    QueueAt(m, t);
    LiveIs(m, q);
    if |live| % 2 == 1 {
      OneInFront(q, m.incoming[t], live[|live| - 1]);
    } else {
      SuffixInOrder(m, t, |q|);
      assert Leftover(live) + m.incoming[t] == q[|q|..] + m.incoming[t];
    }
  }

  // ----- across two tiers -----

  // The dead front of a queue is dropped, and nothing else.
  lemma {:induction false} DropDeadIs(m: MState, q: seq<Req>) returns (k: nat)
    ensures k <= |q| && DropDead(m, q) == q[k..]
    ensures forall i :: 0 <= i < k ==> !IsLive(m, q[i])
    ensures k < |q| ==> IsLive(m, q[k])
  {
    if q == [] || IsLive(m, q[0]) {
      k := 0;
    } else {
      var k1 := DropDeadIs(m, q[1..]);
      k := k1 + 1;
    }
  }

  lemma SuffixInOrder(m: MState, t: nat, k: nat)
    requires QueuesOk(m) && t < TIERS && k <= |m.pending[t]|
    ensures Ordered(m.pending[t][k..] + m.incoming[t])
  {
    QueueAt(m, t);
    assert m.pending[t][k..] + m.incoming[t] == Queue(m, t)[k..];
  }

  lemma DropKeepsInv(m: MState, t: nat)
    requires MatchInv(m) && t < TIERS
    ensures MatchInv(m.(pending := m.pending[t := DropDead(m, m.pending[t])]))
  {
    var q := m.pending[t];
    var k := DropDeadIs(m, q);
    SuffixInOrder(m, t, k);
    forall r | r in q && IsLive(m, r)
      ensures r in q[k..]
    {
      var i := InQueue(q, r);
      assert q[k..][i - k] == r;
    }
    ReplaceQueue(m, t, q[k..], {});
  }

  lemma PopKeepsInv(m: MState, t: nat, except: set<UserId>)
    requires InvBut(m, except) && t < TIERS && m.pending[t] != [] && m.pending[t][0].user in except
    ensures InvBut(m.(pending := m.pending[t := m.pending[t][1..]]), except)
  {
    var q := m.pending[t];
    SuffixInOrder(m, t, 1);
    assert q == [q[0]] + q[1..];
    ReplaceQueue(m, t, q[1..], except);
  }

  // A live front is the oldest live request of its tier.
  lemma FrontIsNext(m: MState, t: nat, q: Req)
    requires MatchInv(m) && t < TIERS && m.pending[t] != [] && IsLive(m, m.pending[t][0])
    ensures Next(m, m.pending[t][0], q) && TierOf(m.pending[t][0].score) == t
  {
    QueueAt(m, t);
    var p := m.pending[t][0];
    assert Queue(m, t)[0] == p;
    forall u | u in m.reqs && u != p.user && m.reqs[u].tier == t
      ensures p.id < m.reqs[u].id
    {
      EntryIsLive(m, u);
      var i := InQueue(Queue(m, t), m.issued[m.reqs[u].id]);
    }
  }

  // Live fronts of different tiers belong to different users.
  lemma FrontsDiffer(m: MState, t: nat)
    requires MatchInv(m) && t < TIERS - 1
    requires m.pending[t] != [] && m.pending[t + 1] != []
    requires IsLive(m, m.pending[t][0]) && IsLive(m, m.pending[t + 1][0])
    ensures m.pending[t][0].user != m.pending[t + 1][0].user
  {
    FrontIsNext(m, t, m.pending[t][0]);
    FrontIsNext(m, t + 1, m.pending[t][0]);
  }

  lemma MatchFrontsKeepsInv(m: MState, t: nat)
    requires MatchInv(m) && t < TIERS - 1
    requires m.pending[t] != [] && m.pending[t + 1] != []
    requires IsLive(m, m.pending[t][0]) && IsLive(m, m.pending[t + 1][0])
    ensures
      var p1, p2 := m.pending[t][0], m.pending[t + 1][0];
      MatchInv(Finalize(m.(pending := m.pending[t := m.pending[t][1..]][t + 1 := m.pending[t + 1][1..]]), p1, p2))
  {
    var p1, p2 := m.pending[t][0], m.pending[t + 1][0];
    FrontIsNext(m, t, p2);
    FrontIsNext(m, t + 1, p1);
    FrontsDiffer(m, t);
    var except := {p1.user, p2.user};
    PopKeepsInv(m, t, except);
    var m1 := m.(pending := m.pending[t := m.pending[t][1..]]);
    PopKeepsInv(m1, t + 1, except);
    var m2 := m1.(pending := m1.pending[t + 1 := m1.pending[t + 1][1..]]);
    FinalizeKeepsInv(m2, p1, p2, except, {});
  }

  // The two fronts after the dead ones are dropped.
  lemma DropBoth(m: MState, t: nat) returns (m2: MState)
    requires MatchInv(m) && t < TIERS - 1
    ensures m2 == m.(pending := m.pending[t := DropDead(m, m.pending[t])][t + 1 := DropDead(m, m.pending[t + 1])])
    ensures MatchInv(m2)
    ensures m2.pending[t] != [] ==> IsLive(m2, m2.pending[t][0])
    ensures m2.pending[t + 1] != [] ==> IsLive(m2, m2.pending[t + 1][0])
  {
    var m1 := m.(pending := m.pending[t := DropDead(m, m.pending[t])]);
    DropKeepsInv(m, t);
    DropKeepsInv(m1, t + 1);
    SameDrop(m, m1, m.pending[t + 1]);
    m2 := m1.(pending := m1.pending[t + 1 := DropDead(m, m.pending[t + 1])]);
    var k := DropDeadIs(m, m.pending[t]);
    var k1 := DropDeadIs(m, m.pending[t + 1]);
  }

  lemma {:induction false} SameDrop(m: MState, m': MState, q: seq<Req>)
    requires m'.online == m.online && m'.reqs == m.reqs
    ensures DropDead(m', q) == DropDead(m, q)
  {
    if q != [] && !IsLive(m, q[0]) {
      SameDrop(m, m', q[1..]);
    }
  }

  lemma CrossTierKeepsInv(m: MState, t: nat, now: Millis)
    requires MatchInv(m) && t < TIERS - 1
    ensures MatchInv(CrossTier(m, t, now))
  {
    var m2 := DropBoth(m, t);
    var left, right := m2.pending[t], m2.pending[t + 1];
    if left != [] && right != [] && (Waited(left[0], now) || Waited(right[0], now)) {
      MatchFrontsKeepsInv(m2, t);
      assert m.pending[t := left[1..]][t + 1 := right[1..]] == m2.pending[t := left[1..]][t + 1 := right[1..]];
    }
  }

  // ----- the whole body -----

  lemma LoopBodyKeepsInv(m: MState, now0: Millis, now1: Millis)
    requires MatchInv(m)
    ensures MatchInv(SameTiers(m)) && MatchInv(LoopBody(m, now0, now1))
  {
    DrainKeepsInv(m);
    SameTierKeepsInv(Drain(m), 0);
    SameTierKeepsInv(SameTier(Drain(m), 0), 1);
    SameTierKeepsInv(SameTier(SameTier(Drain(m), 0), 1), 2);
    CrossTierKeepsInv(SameTiers(m), 0, now0);
    CrossTierKeepsInv(CrossTier(SameTiers(m), 0, now0), 1, now1);
  }

  lemma MatchStepKeepsInv(m: MState, e: MatchEvent)
    requires MatchInv(m) && Permitted(m, e)
    ensures MatchInv(MatchStep(m, e))
  {
    match e {
      case MEnqueue(u, score, now, leaves) => EnqueueKeepsInv(m, u, score, now, leaves);
      case MCancel(u) => CancelKeepsInv(m, u);
      case MDisconnect(u) => CancelKeepsInv(m, u);
      case MLoop(now0, now1) => LoopBodyKeepsInv(m, now0, now1);
      case MStatus(online) => StatusKeepsInv(m, online);
    }
  }
}
