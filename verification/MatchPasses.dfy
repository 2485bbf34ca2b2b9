// Why popping requests one by one computes the passes of the match loop.
module MatchPasses {
  import opened MatchSpec
  import opened MatchProofs
  import opened MatchLoopProofs

  lemma {:induction false} DropKeepsLive(m: MState, q: seq<Req>)
    ensures Live(m, DropDead(m, q)) == Live(m, q)
    ensures DropDead(m, q) != [] ==> IsLive(m, DropDead(m, q)[0])
  {
    if q != [] && !IsLive(m, q[0]) {
      DropKeepsLive(m, q[1..]);
    }
  }

  lemma LiveFrame(m: MState, m': MState, q: seq<Req>)
    requires m'.online == m.online && m'.reqs == m.reqs
    ensures Live(m', q) == Live(m, q)
  {
    SameLive(m, m', q);
  }

  // Dropping the dead front does not change what a pass does.
  lemma DropIsHarmless(m: MState, t: nat)
    requires MatchInv(m) && t < TIERS
    ensures
      var m' := m.(pending := m.pending[t := DropDead(m, m.pending[t])]);
      && MatchInv(m') && SameTier(m', t) == SameTier(m, t)
      && (m'.pending[t] != [] ==> IsLive(m', m'.pending[t][0]))
      && |m'.pending[t]| <= |m.pending[t]|
  {
    var m' := m.(pending := m.pending[t := DropDead(m, m.pending[t])]);
    DropKeepsInv(m, t);
    DropKeepsLive(m, m.pending[t]);
    LiveFrame(m, m', m'.pending[t]);
    var live := Live(m, m.pending[t]);
    assert m'.pending[t := Leftover(live)] == m.pending[t := Leftover(live)];
    var k := DropDeadIs(m, m.pending[t]);
  }

  // A pass over a queue with at most one live request does nothing.
  lemma ShortQueueIsDone(m: MState, t: nat)
    requires t < TIERS && |m.pending[t]| <= 1 && (m.pending[t] != [] ==> IsLive(m, m.pending[t][0]))
    ensures SameTier(m, t) == m
  {
    var q := m.pending[t];
    assert q != [] ==> Live(m, q[1..]) == [] && Live(m, q) == q;
    assert Leftover(q) == q;
    assert m.pending[t := q] == m.pending;
  }

  // What is left of the queue once the live front is taken out.
  function Rest(m: MState, t: nat): seq<Req>
    requires t < TIERS && m.pending[t] != []
  {
    DropDead(m, m.pending[t][1..])
  }

  function AfterPair(m: MState, t: nat): MState
    requires t < TIERS && m.pending[t] != [] && Rest(m, t) != []
  {
    Finalize(m.(pending := m.pending[t := Rest(m, t)[1..]]), m.pending[t][0], Rest(m, t)[0])
  }

  // One round of the pass: the front alone stays, or the front and the next live
  // request are paired and the pass goes on with the rest.
  lemma NextPair(m: MState, t: nat)
    requires MatchInv(m) && t < TIERS && m.pending[t] != [] && IsLive(m, m.pending[t][0])
    ensures Rest(m, t) == [] ==> SameTier(m, t) == m.(pending := m.pending[t := [m.pending[t][0]]])
    ensures Rest(m, t) != [] ==>
      && IsLive(m, Rest(m, t)[0]) && |Rest(m, t)| < |m.pending[t]|
      && MatchInv(AfterPair(m, t)) && SameTier(AfterPair(m, t), t) == SameTier(m, t)
  {
    var q, rest := m.pending[t], Rest(m, t);
    DropKeepsLive(m, q[1..]);
    var k := DropDeadIs(m, q[1..]);
    assert Live(m, q) == [q[0]] + Live(m, rest);
    if rest == [] {
      assert Live(m, q) == [q[0]];
    } else {
      PairKeepsInv(m, t);
      PairKeepsPass(m, t);
    }
  }

  // The live front, the dead ones after it, and the next live request.
  lemma FirstTwo(m: MState, t: nat)
    requires MatchInv(m) && t < TIERS && m.pending[t] != [] && IsLive(m, m.pending[t][0]) && Rest(m, t) != []
    ensures
      var a, b := m.pending[t][0], Rest(m, t)[0];
      && IsLive(m, b) && Live(m, m.pending[t]) == [a, b] + Live(m, Rest(m, t)[1..])
      && Next(m, a, b) && Next(m, b, a) && a.user != b.user
  {
    var q, rest := m.pending[t], Rest(m, t);
    DropKeepsLive(m, q[1..]);
    var live := Live(m, q);
    assert live == [q[0]] + Live(m, rest) == [q[0]] + ([rest[0]] + Live(m, rest[1..]));
    assert live == [q[0], rest[0]] + Live(m, rest[1..]);
    LiveBatch(m, t, m);
    BatchFront(m, live, t);
  }

  // Where the live requests of the queue are.
  lemma LiveAreHere(m: MState, t: nat, r: Req)
    requires t < TIERS && m.pending[t] != [] && Rest(m, t) != []
    requires r in m.pending[t] && IsLive(m, r)
    ensures r == m.pending[t][0] || r == Rest(m, t)[0] || r in Rest(m, t)[1..]
  {
    var q, rest := m.pending[t], Rest(m, t);
    var k := DropDeadIs(m, q[1..]);
    forall j | 0 < j <= k
      ensures !IsLive(m, q[j])
    {
      assert q[1..][j - 1] == q[j];
    }
    var i := InQueue(q, r);
    assert i == k + 1 ==> rest[0] == r;
    assert i > k + 1 ==> rest[1..][i - k - 2] == r;
  }

  lemma PairKeepsInv(m: MState, t: nat)
    requires MatchInv(m) && t < TIERS && m.pending[t] != [] && IsLive(m, m.pending[t][0]) && Rest(m, t) != []
    ensures MatchInv(AfterPair(m, t))
  {
    var q, rest := m.pending[t], Rest(m, t);
    var a, b := q[0], rest[0];
    FirstTwo(m, t);
    var k := DropDeadIs(m, q[1..]);
    assert rest[1..] == q[k + 2..];
    SuffixInOrder(m, t, k + 2);
    forall r | r in q && IsLive(m, r) && r.user !in {a.user, b.user}
      ensures r in rest[1..]
    {
      LiveAreHere(m, t, r);
    }
    ReplaceQueue(m, t, rest[1..], {a.user, b.user});
    FinalizeKeepsInv(m.(pending := m.pending[t := rest[1..]]), a, b, {a.user, b.user}, {});
  }

  lemma PairKeepsPass(m: MState, t: nat)
    requires MatchInv(m) && t < TIERS && m.pending[t] != [] && IsLive(m, m.pending[t][0]) && Rest(m, t) != []
    ensures SameTier(AfterPair(m, t), t) == SameTier(m, t)
  {
    var q, rest := m.pending[t], Rest(m, t);
    var a, b := q[0], rest[0];
    FirstTwo(m, t);
    var more := Live(m, rest[1..]);
    RestStaysLive(m, t);
    assert Live(m, q)[2..] == more;
    assert Leftover(Live(m, q)) == Leftover(more);
    assert AfterPair(m, t).pending[t := Leftover(more)] == m.pending[t := Leftover(more)];
    assert Finalize(m.(pending := m.pending[t := Leftover(more)]), a, b)
        == AfterPair(m, t).(pending := m.pending[t := Leftover(more)]);
  }

  // Matching two live requests kills no other request.
  lemma OthersStayLive(m: MState, m': MState, a: Req, b: Req, r: Req)
    requires IsLive(m, a) && IsLive(m, b) && r.id != a.id && r.id != b.id
    requires m'.online == Finalize(m, a, b).online && m'.reqs == Finalize(m, a, b).reqs
    ensures IsLive(m', r) <==> IsLive(m, r)
  {
  }

  lemma RestIsYounger(m: MState, t: nat, r: Req)
    requires QueuesOk(m) && t < TIERS && m.pending[t] != [] && Rest(m, t) != [] && r in Rest(m, t)[1..]
    ensures r.id != m.pending[t][0].id && r.id != Rest(m, t)[0].id
  {
    var q, rest := m.pending[t], Rest(m, t);
    var k := RestIsSuffix(m, t);
    var i := InQueue(rest[1..], r);
    assert rest[1..][i] == q[i + k + 2] && rest[0] == q[k + 1];
    OlderInQueue(m, t, 0, i + k + 2);
    OlderInQueue(m, t, k + 1, i + k + 2);
  }

  lemma RestIsSuffix(m: MState, t: nat) returns (k: nat)
    requires t < TIERS && m.pending[t] != [] && Rest(m, t) != []
    ensures k + 1 < |m.pending[t]| && Rest(m, t) == m.pending[t][k + 1..]
  {
    k := DropDeadIs(m, m.pending[t][1..]);
  }

  lemma OlderInQueue(m: MState, t: nat, i: nat, j: nat)
    requires QueuesOk(m) && t < TIERS && i < j < |m.pending[t]|
    ensures m.pending[t][i].id < m.pending[t][j].id
  {
    QueueAt(m, t);
    assert Queue(m, t)[i] == m.pending[t][i] && Queue(m, t)[j] == m.pending[t][j];
  }

  lemma RestStaysLive(m: MState, t: nat)
    requires MatchInv(m) && t < TIERS && m.pending[t] != [] && IsLive(m, m.pending[t][0]) && Rest(m, t) != []
    ensures Live(AfterPair(m, t), Rest(m, t)[1..]) == Live(m, Rest(m, t)[1..])
  {
    FirstTwo(m, t);
    forall r | r in Rest(m, t)[1..]
      ensures IsLive(AfterPair(m, t), r) <==> IsLive(m, r)
    {
      RestIsYounger(m, t, r);
      OthersStayLive(m, AfterPair(m, t), m.pending[t][0], Rest(m, t)[0], r);
    }
    SameLive(m, AfterPair(m, t), Rest(m, t)[1..]);
  }

  lemma FrontsAreLive(m: MState, t: nat)
    requires MatchInv(m) && t < TIERS - 1
    ensures DropDead(m, m.pending[t]) != [] ==> IsLive(m, DropDead(m, m.pending[t])[0])
    ensures DropDead(m, m.pending[t + 1]) != [] ==> IsLive(m, DropDead(m, m.pending[t + 1])[0])
  {
    DropKeepsLive(m, m.pending[t]);
    DropKeepsLive(m, m.pending[t + 1]);
  }

  // A pass across two tiers matches the two oldest live requests if and only if
  // one of them has waited 30 seconds, and otherwise matches nobody.
  ghost predicate CrossOutcome(m: MState, m': MState, t: nat, now: int)
    requires t < TIERS - 1
  {
    var left, right := Live(m, m.pending[t]), Live(m, m.pending[t + 1]);
    m'.results ==
      if left != [] && right != [] && (now - left[0].time >= 30000 || now - right[0].time >= 30000) then
        m.results + [Pairing(m.lastRoom + 1, left[0], right[0])]
      else m.results
  }

  lemma CrossTierDecides(m: MState, t: nat, now: int)
    requires t < TIERS - 1
    ensures CrossOutcome(m, CrossTier(m, t, now), t, now)
  {
    DropKeepsLive(m, m.pending[t]);
    DropKeepsLive(m, m.pending[t + 1]);
  }
}
