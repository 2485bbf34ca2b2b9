// The main results about the matchmaker.
module MatchTheorems {
  import opened Basics
  import opened Online
  import opened MatchSpec
  import opened MatchProofs
  import opened MatchLoopProofs

  // ----- who is matching -----

  predicate IsPlace(m: MState, t: nat, i: nat) {
    t < TIERS && i < |Queue(m, t)|
  }

  predicate CarriesEntry(m: MState, t: nat, i: nat, u: UserId) {
    IsPlace(m, t, i) && u in m.reqs && Queue(m, t)[i].id == m.reqs[u].id
  }

  // A user is matching exactly when it has an entry, and then exactly one queued
  // request carries the identifier of the entry: it is in the tier of its score,
  // and every other queued request of the user is dead.
  lemma MatchingMeansQueued(m: MState, u: UserId)
    requires MatchInv(m)
    ensures StatusOf(m.online, u) == Matching <==> u in m.reqs
    ensures u in m.reqs ==>
      exists t: nat, i: nat :: CarriesEntry(m, t, i, u)
        && InBand(Queue(m, t)[i].score, t) && Queue(m, t)[i].user == u && IsLive(m, Queue(m, t)[i])
    ensures forall t: nat, i: nat, t': nat, i': nat ::
      CarriesEntry(m, t, i, u) && CarriesEntry(m, t', i', u) ==> t == t' && i == i'
    ensures forall t: nat, i: nat :: IsPlace(m, t, i) && Queue(m, t)[i].user == u ==>
      (IsLive(m, Queue(m, t)[i]) <==> CarriesEntry(m, t, i, u))
  {
    assert StatusOk(m.online, m.reqs, u);
    forall t: nat, i: nat | IsPlace(m, t, i) && Queue(m, t)[i].user == u
      ensures IsLive(m, Queue(m, t)[i]) <==> CarriesEntry(m, t, i, u)
    {
      QueueAt(m, t);
      assert Issued(m.issued, Queue(m, t)[i]);
      assert IdOk(m.issued, m.lastReq, Queue(m, t)[i].id);
    }
    if u in m.reqs {
      EntryIsLive(m, u);
      var i := InQueue(Queue(m, m.reqs[u].tier), m.issued[m.reqs[u].id]);
      assert CarriesEntry(m, m.reqs[u].tier, i, u);
    }
    forall t: nat, i: nat, t': nat, i': nat | CarriesEntry(m, t, i, u) && CarriesEntry(m, t', i', u)
      ensures t == t' && i == i'
    {
      OnePlaceEach(m, t, i, t', i');
    }
  }

  // No identifier is queued twice.
  lemma OnePlaceEach(m: MState, t: nat, i: nat, t': nat, i': nat)
    requires MatchInv(m) && t < TIERS && t' < TIERS && i < |Queue(m, t)| && i' < |Queue(m, t')|
    requires Queue(m, t)[i].id == Queue(m, t')[i'].id
    ensures t == t' && i == i'
  {
    QueueAt(m, t);
    QueueAt(m, t');
    assert Issued(m.issued, Queue(m, t)[i]) && Issued(m.issued, Queue(m, t')[i']);
    var a, b := Queue(m, t)[i], Queue(m, t')[i'];
    assert t == TierOf(a.score) == TierOf(b.score) == t';
  }

  function PushedTo(q: Queues, t: nat, r: Req): Queues {
    if t < TIERS then q[t := q[t] + [r]] else q
  }

  // Somebody in the hall who stays is always accepted, and nobody else is; a
  // refused enqueue leaves neither entry nor request behind.
  lemma EnqueueAnswers(m: MState, u: UserId, score: int, now: Millis, leaves: bool)
    requires MatchInv(m)
    ensures
      var (m', ok) := Enqueue(m, u, score, now, leaves);
      var idle := StatusOf(m.online, u) == HallIdle;
      && (ok <==> idle && !leaves)
      && (ok <==> u !in m.reqs && u in m'.reqs)
      && (ok ==>
        && StatusOf(m'.online, u) == Matching && InBand(score, m'.reqs[u].tier)
        && m'.reqs[u].id == m'.lastReq == m.lastReq + 1 && m'.reqs[u].time == now
        && m'.incoming == PushedTo(m.incoming, m'.reqs[u].tier, Req(u, score, now, m'.lastReq, false)))
      && (!ok && !idle ==> m' == m)
      && (!ok && idle ==> m' == m.(online := m.online - {u}, lastReq := m.lastReq + 1))
  {
    assert StatusOk(m.online, m.reqs, u);
  }

  // A cancel undoes an enqueue: everybody's status and entry is as before, the
  // request is dead, and the user would be accepted again.
  lemma CancelUndoesEnqueue(m: MState, u: UserId, score: int, now: Millis)
    requires MatchInv(m) && StatusOf(m.online, u) == HallIdle
    ensures
      var (m1, ok1) := Enqueue(m, u, score, now, false);
      var (m2, ok2) := Cancel(m1, u);
      && ok1 && ok2 && m2.online == m.online && m2.reqs == m.reqs && m2.results == m.results
      && m1.lastReq in m1.issued && IsLive(m1, m1.issued[m1.lastReq])
      && m2.withdrawn == m.withdrawn + {m1.lastReq} && !IsLive(m2, m1.issued[m1.lastReq])
  {
    EnqueueAnswers(m, u, score, now, false);
    var m1 := Enqueue(m, u, score, now, false).0;
    var m2 := Cancel(m1, u).0;
    assert m2.online == m.online[u := Matching][u := HallIdle];
    assert m2.online == m.online;
    assert m2.reqs == m.reqs;
  }

  // ----- histories only grow -----

  predicate Grew(a: MState, b: MState) {
    && (forall id :: id in a.issued ==> id in b.issued && b.issued[id] == a.issued[id])
    && a.withdrawn <= b.withdrawn
    && |a.results| <= |b.results| && b.results[..|a.results|] == a.results
  }

  lemma GrewFurther(a: MState, b: MState, c: MState)
    requires Grew(a, b) && Grew(b, c)
    ensures Grew(a, c)
  {
    assert c.results[..|a.results|] == c.results[..|b.results|][..|a.results|];
  }

  lemma SameTierGrows(m: MState, t: nat)
    requires t < TIERS
    ensures Grew(m, SameTier(m, t))
  {
    var live := Live(m, m.pending[t]);
    var m1 := m.(pending := m.pending[t := Leftover(live)]);
    PassEmitsPairs(m1, live);
    PairUpFrame(m1, live);
  }

  lemma LoopBodyGrows(m: MState, now0: Millis, now1: Millis)
    ensures Grew(m, LoopBody(m, now0, now1))
  {
    var a := Drain(m);
    var b := SameTier(a, 0);
    var c := SameTier(b, 1);
    var d := SameTier(c, 2);
    var e := CrossTier(d, 0, now0);
    SameTierGrows(a, 0);
    SameTierGrows(b, 1);
    SameTierGrows(c, 2);
    CrossTierGrows(d, 0, now0);
    CrossTierGrows(e, 1, now1);
    GrewFurther(m, a, b);
    GrewFurther(m, b, c);
    GrewFurther(m, c, d);
    GrewFurther(m, d, e);
    GrewFurther(m, e, CrossTier(e, 1, now1));
  }

  lemma CrossTierGrows(m: MState, t: nat, now: Millis)
    requires t < TIERS - 1
    ensures Grew(m, CrossTier(m, t, now))
  {
  }

  // A request is withdrawn only because its user cancels or leaves.
  predicate Quits(e: MatchEvent, u: UserId) {
    e == MCancel(u) || e == MDisconnect(u)
  }

  lemma StepGrows(m: MState, e: MatchEvent)
    requires MatchInv(m)
    ensures Grew(m, MatchStep(m, e))
    ensures forall id :: id in MatchStep(m, e).withdrawn && id !in m.withdrawn ==>
      id in m.issued && Quits(e, m.issued[id].user)
  {
    match e {
      case MEnqueue(u, score, now, leaves) => FreshId(m);
      case MCancel(u) =>
        assert u in m.reqs ==> EntryOk(m.issued, m.reqs, u);
      case MDisconnect(u) =>
        assert u in m.reqs ==> EntryOk(m.issued, m.reqs, u);
      case MLoop(now0, now1) =>
        LoopBodyGrows(m, now0, now1);
        LoopKeepsWithdrawn(m, now0, now1);
      case MStatus(online) =>
    }
  }

  lemma LoopKeepsWithdrawn(m: MState, now0: Millis, now1: Millis)
    ensures LoopBody(m, now0, now1).withdrawn == m.withdrawn && LoopBody(m, now0, now1).issued == m.issued
  {
    SameTierShape(Drain(m), 0);
    SameTierShape(SameTier(Drain(m), 0), 1);
    SameTierShape(SameTier(SameTier(Drain(m), 0), 1), 2);
  }

  lemma {:induction false} RunKeepsMatchInv(m: MState, es: seq<MatchEvent>)
    requires MatchInv(m) && MatchRunOk(m, es)
    ensures MatchInv(MatchRun(m, es)) && Grew(m, MatchRun(m, es))
    decreases |es|
  {
    if es != [] {
      var m1 := MatchStep(m, es[0]);
      MatchStepKeepsInv(m, es[0]);
      StepGrows(m, es[0]);
      RunKeepsMatchInv(m1, es[1..]);
      GrewFurther(m, m1, MatchRun(m, es));
    }
  }

  // ----- every accepted request has one fate -----

  // Live, matched, withdrawn: exactly one of the three, in every state.
  lemma OneFate(m: MState, id: nat)
    requires MatchInv(m) && id in m.issued
    ensures
      var live, matched, withdrawn := IsLive(m, m.issued[id]), id in MatchedIds(m.results), id in m.withdrawn;
      (live && !matched && !withdrawn) || (!live && matched && !withdrawn) || (!live && !matched && withdrawn)
  {
    assert FateOk(m.issued, m.reqs, MatchedIds(m.results), m.withdrawn, id);
    assert IdOk(m.issued, m.lastReq, id);
    assert StatusOk(m.online, m.reqs, m.issued[id].user);
  }

  lemma {:induction false} MatchedPrefix(results: seq<Pairing>, n: nat)
    requires n <= |results|
    ensures MatchedIds(results[..n]) <= MatchedIds(results)
  {
    if n < |results| {
      MatchedPrefix(results[..|results| - 1], n);
      assert results[..|results| - 1][..n] == results[..n];
    } else {
      assert results[..n] == results;
    }
  }

  // A dead request stays dead for the rest of the run, and is never matched.
  lemma DeadStaysDead(m: MState, es: seq<MatchEvent>, r: Req)
    requires MatchInv(m) && MatchRunOk(m, es) && Issued(m.issued, r) && !IsLive(m, r)
    ensures !IsLive(MatchRun(m, es), r)
    ensures r.id in MatchedIds(MatchRun(m, es).results) <==> r.id in MatchedIds(m.results)
  {
    var m' := MatchRun(m, es);
    RunKeepsMatchInv(m, es);
    OneFate(m, r.id);
    OneFate(m', r.id);
    MatchedPrefix(m'.results, |m.results|);
  }

  lemma {:induction false} WithdrawnMeansQuit(m: MState, es: seq<MatchEvent>, id: nat)
    requires MatchInv(m) && MatchRunOk(m, es) && id in m.issued
    requires id !in m.withdrawn && id in MatchRun(m, es).withdrawn
    ensures exists k :: 0 <= k < |es| && Quits(es[k], m.issued[id].user)
    decreases |es|
  {
    StepGrows(m, es[0]);
    var m1 := MatchStep(m, es[0]);
    MatchStepKeepsInv(m, es[0]);
    if id !in m1.withdrawn {
      WithdrawnMeansQuit(m1, es[1..], id);
      var k :| 0 <= k < |es[1..]| && Quits(es[1..][k], m.issued[id].user);
      assert es[k + 1] == es[1..][k];
    }
  }

  lemma {:induction false} MatchedAt(results: seq<Pairing>, id: nat) returns (k: nat)
    requires id in MatchedIds(results)
    ensures k < |results| && (results[k].p1.id == id || results[k].p2.id == id)
  {
    k := |results| - 1;
    if results[k].p1.id != id && results[k].p2.id != id {
      k := MatchedAt(results[..k], id);
    }
  }

  // Whoever is queued and neither cancels nor leaves is at the end of any run
  // still queued, or has been matched in the meantime.
  lemma AcceptedIsServed(m: MState, es: seq<MatchEvent>, r: Req)
    requires MatchInv(m) && MatchRunOk(m, es) && Issued(m.issued, r) && IsLive(m, r)
    requires forall k :: 0 <= k < |es| ==> !Quits(es[k], r.user)
    ensures
      var m' := MatchRun(m, es);
      IsLive(m', r) || exists j :: |m.results| <= j < |m'.results| && Plays(m'.results[j], r)
  {
    var m' := MatchRun(m, es);
    RunKeepsMatchInv(m, es);
    OneFate(m, r.id);
    OneFate(m', r.id);
    if r.id in m'.withdrawn {
      WithdrawnMeansQuit(m, es, r.id);
    } else if r.id in MatchedIds(m'.results) {
      var j := MatchedAt(m'.results, r.id);
      assert PairingOk(m'.issued, m'.results[j]);
      assert Plays(m'.results[j], r);
      if j < |m.results| {
        assert m'.results[..|m.results|][j] == m'.results[j];
        MatchedIn(m.results, j);
      }
    }
  }

  // First come, first served: when a request is matched, every older request of
  // its tier that was queued before and did not quit has been matched before it
  // or in the same result.
  lemma FirstComeFirstServed(m: MState, es: seq<MatchEvent>, r: Req, k: nat, s: Req)
    requires MatchInv(m) && MatchRunOk(m, es) && Issued(m.issued, r) && IsLive(m, r)
    requires forall i :: 0 <= i < |es| ==> !Quits(es[i], r.user)
    requires |m.results| <= k < |MatchRun(m, es).results| && Plays(MatchRun(m, es).results[k], s)
    requires TierOf(r.score) == TierOf(s.score) && r.id < s.id
    ensures exists j :: |m.results| <= j <= k && Plays(MatchRun(m, es).results[j], r)
  {
    var m' := MatchRun(m, es);
    RunKeepsMatchInv(m, es);
    AcceptedIsServed(m, es, r);
    assert r.user in m'.reqs ==> EntryOk(m'.issued, m'.reqs, r.user) && Younger(m'.results[k], m'.reqs[r.user]);
    if !IsLive(m', r) {
      var j :| |m.results| <= j < |m'.results| && Plays(m'.results[j], r);
      assert k < j ==> Before(m'.results[k], m'.results[j]);
    }
  }

  // ----- results -----

  // No request is matched twice, every matched request was issued, and the
  // players of a result are two different users.
  lemma ResultsAreSound(m: MState)
    requires MatchInv(m)
    ensures forall k :: 0 <= k < |m.results| ==>
      Issued(m.issued, m.results[k].p1) && Issued(m.issued, m.results[k].p2)
      && m.results[k].p1.user != m.results[k].p2.user && m.results[k].p1.id != m.results[k].p2.id
    ensures forall j, k, r :: 0 <= j < |m.results| && 0 <= k < |m.results| && Plays(m.results[j], r) && Plays(m.results[k], r) ==> j == k
    ensures forall j, k :: 0 <= j < k < |m.results| ==> m.results[j].room < m.results[k].room
  {
    forall k | 0 <= k < |m.results|
      ensures Issued(m.issued, m.results[k].p1) && Issued(m.issued, m.results[k].p2)
        && m.results[k].p1.user != m.results[k].p2.user && m.results[k].p1.id != m.results[k].p2.id
    {
      assert PairingOk(m.issued, m.results[k]);
    }
    forall j, k, r | 0 <= j < |m.results| && 0 <= k < |m.results| && Plays(m.results[j], r) && Plays(m.results[k], r)
      ensures j == k
    {
      assert j < k ==> Before(m.results[j], m.results[k]);
      assert k < j ==> Before(m.results[k], m.results[j]);
    }
  }

  // ----- conservation, counted -----

  lemma {:induction false} MatchedCount(issued: map<nat, Req>, results: seq<Pairing>, lastRoom: nat)
    requires ResultsOk(issued, results, lastRoom)
    ensures |MatchedIds(results)| == 2 * |results|
    decreases |results|
  {
    if results != [] {
      var n := |results| - 1;
      var rest, p := results[..n], results[n];
      assert ResultsOk(issued, rest, lastRoom - 1);
      MatchedCount(issued, rest, lastRoom - 1);
      assert PairingOk(issued, p);
      assert p.p1.id !in MatchedIds(rest) by {
        NotYetMatched(issued, results, lastRoom, p.p1);
      }
      assert p.p2.id !in MatchedIds(rest) by {
        NotYetMatched(issued, results, lastRoom, p.p2);
      }
    }
  }

  // The last result plays nobody of the earlier ones.
  lemma NotYetMatched(issued: map<nat, Req>, results: seq<Pairing>, lastRoom: nat, r: Req)
    requires ResultsOk(issued, results, lastRoom) && results != [] && Plays(results[|results| - 1], r)
    ensures r.id !in MatchedIds(results[..|results| - 1])
  {
    var n := |results| - 1;
    assert PairingOk(issued, results[n]);
    if r.id in MatchedIds(results[..n]) {
      var j := MatchedAt(results[..n], r.id);
      OlderDiffers(issued, results, lastRoom, j, n, r);
    }
  }

  lemma OlderDiffers(issued: map<nat, Req>, results: seq<Pairing>, lastRoom: nat, j: nat, n: nat, r: Req)
    requires ResultsOk(issued, results, lastRoom) && j < n < |results| && Plays(results[n], r)
    ensures results[j].p1.id != r.id && results[j].p2.id != r.id
  {
    assert PairingOk(issued, results[j]) && PairingOk(issued, results[n]);
    assert Before(results[j], results[n]);
  }

  function LiveIds(reqs: map<UserId, Meta>): set<nat> {
    set u | u in reqs :: reqs[u].id
  }

  lemma OneMoreLive(issued: map<nat, Req>, reqs: map<UserId, Meta>, u: UserId)
    requires EntriesOk(issued, reqs) && u in reqs
    ensures LiveIds(reqs) == LiveIds(reqs - {u}) + {reqs[u].id} && reqs[u].id !in LiveIds(reqs - {u})
    ensures EntriesOk(issued, reqs - {u})
  {
    var rest := reqs - {u};
    forall v | v in rest
      ensures EntryOk(issued, rest, v) && rest[v].id != reqs[u].id
    {
      assert EntryOk(issued, reqs, v) && EntryOk(issued, reqs, u);
    }
    forall id | id in LiveIds(reqs)
      ensures id in LiveIds(rest) + {reqs[u].id}
    {
      var v :| v in reqs && reqs[v].id == id;
      assert v != u ==> v in rest && rest[v].id == id;
    }
    forall id | id in LiveIds(rest)
      ensures id in LiveIds(reqs) && id != reqs[u].id
    {
      var v :| v in rest && rest[v].id == id;
      assert v in reqs && reqs[v].id == id;
    }
  }

  lemma {:induction false} LiveCount(issued: map<nat, Req>, reqs: map<UserId, Meta>)
    requires EntriesOk(issued, reqs)
    ensures |LiveIds(reqs)| == |reqs|
    decreases |reqs|
  {
    assert |reqs| == |reqs.Keys|;
    if reqs.Keys == {} {
      assert LiveIds(reqs) == {};
    } else {
      var u :| u in reqs.Keys;
      OneMoreLive(issued, reqs, u);
      RemovedFrom(reqs, {u});
      LiveCount(issued, reqs - {u});
    }
  }

  // Every accepted request is counted once: waiting, withdrawn, or one of the
  // two of a result.
  lemma NothingIsLost(m: MState)
    requires MatchInv(m)
    ensures |m.issued| == |m.reqs| + 2 * |m.results| + |m.withdrawn|
  {
    var live, matched := LiveIds(m.reqs), MatchedIds(m.results);
    LiveCount(m.issued, m.reqs);
    MatchedCount(m.issued, m.results, m.lastRoom);
    forall id | id in m.issued
      ensures (id in live <==> Current(m.reqs, m.issued[id])) && FateOk(m.issued, m.reqs, matched, m.withdrawn, id)
    {
      LiveMeansCurrent(m, id);
      assert FateOk(m.issued, m.reqs, matched, m.withdrawn, id);
    }
    assert live <= m.issued.Keys by {
      forall u | u in m.reqs ensures m.reqs[u].id in m.issued { assert EntryOk(m.issued, m.reqs, u); }
    }
    assert m.issued.Keys == live + matched + m.withdrawn;
    assert live !! matched && (live + matched) !! m.withdrawn;
    assert |m.issued| == |m.issued.Keys|;
  }

  lemma LiveMeansCurrent(m: MState, id: nat)
    requires MatchInv(m) && id in m.issued
    ensures id in LiveIds(m.reqs) <==> Current(m.reqs, m.issued[id])
  {
    assert IdOk(m.issued, m.lastReq, id);
    if id in LiveIds(m.reqs) {
      var u :| u in m.reqs && m.reqs[u].id == id;
      assert EntryOk(m.issued, m.reqs, u);
    }
  }

  // ----- what one body of the loop achieves -----

  lemma SameTierShape(m: MState, t: nat)
    requires t < TIERS
    ensures
      var m' := SameTier(m, t);
      && m'.incoming == m.incoming && m'.withdrawn == m.withdrawn && m'.issued == m.issued
      && m'.pending == m.pending[t := Leftover(Live(m, m.pending[t]))]
  {
    var live := Live(m, m.pending[t]);
    PairUpFrame(m.(pending := m.pending[t := Leftover(live)]), live);
  }

  // Two adjacent tiers need no pass across them.
  predicate Quiet(pending: Queues, t: nat, now: Millis)
    requires t < TIERS - 1
  {
    NobodyWaited(pending[t], pending[t + 1], now)
  }

  predicate NobodyWaited(left: seq<Req>, right: seq<Req>, now: Millis) {
    forall p1, p2 :: p1 in left && p2 in right ==> now - p1.time < 30000 && now - p2.time < 30000
  }

  predicate AtMostOneEach(pending: Queues) {
    |pending[0]| <= 1 && |pending[1]| <= 1 && |pending[2]| <= 1
  }

  lemma SameTiersShape(m: MState)
    ensures SameTiers(m).incoming == [[], [], []] && AtMostOneEach(SameTiers(m).pending)
  {
    var a := Drain(m);
    SameTierShape(a, 0);
    SameTierShape(SameTier(a, 0), 1);
    SameTierShape(SameTier(SameTier(a, 0), 1), 2);
  }

  lemma CrossTierShape(m: MState, t: nat, now: Millis)
    requires t < TIERS - 1 && AtMostOneEach(m.pending)
    ensures
      var m' := CrossTier(m, t, now);
      && m'.incoming == m.incoming && AtMostOneEach(m'.pending) && Quiet(m'.pending, t, now)
      && forall s, r :: 0 <= s < TIERS && r in m'.pending[s] ==> r in m.pending[s]
  {
    var k := DropDeadIs(m, m.pending[t]);
    var k1 := DropDeadIs(m, m.pending[t + 1]);
  }

  predicate AllQuiet(m: MState, now0: Millis, now1: Millis) {
    && m.incoming == [[], [], []] && AtMostOneEach(m.pending)
    && Quiet(m.pending, 0, now0) && Quiet(m.pending, 1, now1)
  }

  lemma TwoPasses(m: MState, now0: Millis, now1: Millis)
    requires m.incoming == [[], [], []] && AtMostOneEach(m.pending)
    ensures AllQuiet(CrossTier(CrossTier(m, 0, now0), 1, now1), now0, now1)
  {
    var m1 := CrossTier(m, 0, now0);
    CrossTierShape(m, 0, now0);
    CrossTierShape(m1, 1, now1);
    QuietStays(m1.pending, CrossTier(m1, 1, now1).pending, now0);
  }

  lemma QuietStays(pending: Queues, pending': Queues, now: Millis)
    requires Quiet(pending, 0, now) && forall s, r :: 0 <= s < TIERS && r in pending'[s] ==> r in pending[s]
    ensures Quiet(pending', 0, now)
  {
    forall p1, p2 | p1 in pending'[0] && p2 in pending'[1]
      ensures now - p1.time < 30000 && now - p2.time < 30000
    {
      assert p1 in pending[0] && p2 in pending[1];
    }
  }

  // After one body of the loop nothing is left to do: at most one request is
  // queued in each tier, and no neighbours of which one has waited long enough
  // at the reading of the clock.
  lemma LoopBodyIsQuiet(m: MState, now0: Millis, now1: Millis)
    requires MatchInv(m)
    ensures MatchInv(LoopBody(m, now0, now1)) && AllQuiet(LoopBody(m, now0, now1), now0, now1)
  {
    LoopBodyKeepsInv(m, now0, now1);
    SameTiersShape(m);
    TwoPasses(SameTiers(m), now0, now1);
  }

  // Its request is the only one of its tier.
  lemma OnlyRequest(m: MState, u: UserId, now0: Millis, now1: Millis)
    requires MatchInv(m) && AllQuiet(m, now0, now1) && u in m.reqs
    ensures
      var e := m.reqs[u];
      && e.id in m.issued && m.issued[e.id].user == u && m.issued[e.id].time == e.time
      && e.tier < TIERS && m.pending[e.tier] == [m.issued[e.id]]
  {
    EntryIsLive(m, u);
    var t := m.reqs[u].tier;
    assert Queue(m, t) == m.pending[t];
  }

  lemma QuietUsers(m: MState, now0: Millis, now1: Millis, u: UserId, v: UserId)
    requires MatchInv(m) && AllQuiet(m, now0, now1) && u in m.reqs && v in m.reqs && u != v
    ensures m.reqs[u].tier != m.reqs[v].tier
    ensures m.reqs[v].tier == m.reqs[u].tier + 1 ==>
      var now := if m.reqs[u].tier == 0 then now0 else now1;
      now - m.reqs[u].time < 30000 && now - m.reqs[v].time < 30000
  {
    OnlyRequest(m, u, now0, now1);
    OnlyRequest(m, v, now0, now1);
    var p1, p2 := m.issued[m.reqs[u].id], m.issued[m.reqs[v].id];
    assert p1 in m.pending[m.reqs[u].tier] && p2 in m.pending[m.reqs[v].tier];
  }

  // For the users: two who still wait after it are of different tiers, and if
  // these are neighbours neither has waited long enough.
  lemma WhoStillWaits(m: MState, now0: Millis, now1: Millis, u: UserId, v: UserId)
    requires MatchInv(m) && u != v
    requires StatusOf(LoopBody(m, now0, now1).online, u) == Matching && StatusOf(LoopBody(m, now0, now1).online, v) == Matching
    ensures
      var reqs := LoopBody(m, now0, now1).reqs;
      && u in reqs && v in reqs && reqs[u].tier != reqs[v].tier
      && (reqs[v].tier == reqs[u].tier + 1 ==>
        var now := if reqs[u].tier == 0 then now0 else now1;
        now - reqs[u].time < 30000 && now - reqs[v].time < 30000)
  {
    var m' := LoopBody(m, now0, now1);
    LoopBodyIsQuiet(m, now0, now1);
    MatchingMeansQueued(m', u);
    MatchingMeansQueued(m', v);
    QuietUsers(m', now0, now1, u, v);
  }

  // ----- whom the loop matches -----

  // A result is within a tier, or across neighbours of which one has waited 30
  // seconds; the weaker player's tier comes first.
  predicate LongWait(p: Pairing, now: Millis) {
    now - p.p1.time >= 30000 || now - p.p2.time >= 30000
  }

  predicate ByTheRules(p: Pairing, now0: Millis, now1: Millis) {
    || (p.p1.score < 1300 && p.p2.score < 1300)
    || (1300 <= p.p1.score < 1700 && 1300 <= p.p2.score < 1700)
    || (1700 <= p.p1.score && 1700 <= p.p2.score)
    || (p.p1.score < 1300 <= p.p2.score < 1700 && LongWait(p, now0))
    || (1300 <= p.p1.score < 1700 <= p.p2.score && LongWait(p, now1))
  }

  predicate Obeys(results: seq<Pairing>, from: nat, now0: Millis, now1: Millis) {
    forall k :: from <= k < |results| ==> ByTheRules(results[k], now0, now1)
  }

  lemma SameTierObeys(m: MState, t: nat, from: nat, now0: Millis, now1: Millis)
    requires MatchInv(m) && t < TIERS && from <= |m.results| && Obeys(m.results, from, now0, now1)
    ensures Obeys(SameTier(m, t).results, from, now0, now1) && from <= |SameTier(m, t).results|
  {
    var q := m.pending[t];
    var live := Live(m, q);
    var m1 := m.(pending := m.pending[t := Leftover(live)]);
    var results := PairUp(m1, live).results;
    PassEmitsPairs(m1, live);
    LiveBatch(m, t, m1);
    forall k | from <= k < |results|
      ensures ByTheRules(results[k], now0, now1)
    {
      if k < |m.results| {
        assert results[..|m.results|][k] == m.results[k];
      } else {
        var i := k - |m.results|;
        assert results[|m.results| + i] == Couple(live, m.lastRoom, i);
        assert InHand(m1, live[2 * i], t) && InHand(m1, live[2 * i + 1], t);
      }
    }
  }

  lemma CrossTierObeys(m: MState, t: nat, from: nat, now0: Millis, now1: Millis)
    requires MatchInv(m) && t < TIERS - 1 && from <= |m.results| && Obeys(m.results, from, now0, now1)
    ensures
      var now := if t == 0 then now0 else now1;
      Obeys(CrossTier(m, t, now).results, from, now0, now1) && from <= |CrossTier(m, t, now).results|
  {
    var m2 := DropBoth(m, t);
    if m2.pending[t] != [] && m2.pending[t + 1] != [] {
      FrontIsNext(m2, t, m2.pending[t][0]);
      FrontIsNext(m2, t + 1, m2.pending[t][0]);
    }
  }

  lemma LoopBodyObeysRules(m: MState, now0: Millis, now1: Millis)
    requires MatchInv(m)
    ensures Obeys(LoopBody(m, now0, now1).results, |m.results|, now0, now1)
  {
    var n := |m.results|;
    var a := Drain(m);
    var b := SameTier(a, 0);
    var c := SameTier(b, 1);
    var d := SameTier(c, 2);
    var e := CrossTier(d, 0, now0);
    DrainKeepsInv(m);
    SameTierKeepsInv(a, 0);
    SameTierKeepsInv(b, 1);
    SameTierKeepsInv(c, 2);
    CrossTierKeepsInv(d, 0, now0);
    SameTierObeys(a, 0, n, now0, now1);
    SameTierObeys(b, 1, n, now0, now1);
    SameTierObeys(c, 2, n, now0, now1);
    CrossTierObeys(d, 0, n, now0, now1);
    CrossTierObeys(e, 1, n, now0, now1);
  }

  // ----- where the matched players are -----

  // Players of results from `from` on have no entry and are in a room.
  predicate InRooms(online: Users, reqs: map<UserId, Meta>, p: Pairing) {
    && p.p1.user !in reqs && p.p2.user !in reqs
    && StatusOf(online, p.p1.user) == InRoom && StatusOf(online, p.p2.user) == InRoom
  }

  predicate AllInRooms(m: MState, from: nat) {
    forall k :: from <= k < |m.results| ==> InRooms(m.online, m.reqs, m.results[k])
  }

  lemma FinalizeEntersRooms(m: MState, p1: Req, p2: Req, from: nat)
    requires AllInRooms(m, from) && p1.user in m.reqs && p2.user in m.reqs && p1.user in m.online && p2.user in m.online
    ensures AllInRooms(Finalize(m, p1, p2), from)
  {
    var m' := Finalize(m, p1, p2);
    forall k | from <= k < |m'.results|
      ensures InRooms(m'.online, m'.reqs, m'.results[k])
    {
      assert k < |m.results| ==> InRooms(m.online, m.reqs, m.results[k]);
    }
  }

  lemma {:induction false} PairUpEntersRooms(m: MState, live: seq<Req>, t: nat, from: nat)
    requires Batch(m, live, t) && AllInRooms(m, from)
    ensures AllInRooms(PairUp(m, live), from)
    decreases |live|
  {
    if |live| >= 2 {
      assert InHand(m, live[0], t) && InHand(m, live[1], t);
      FinalizeEntersRooms(m, live[0], live[1], from);
      BatchRest(m, live, t);
      PairUpEntersRooms(Finalize(m, live[0], live[1]), live[2..], t, from);
    }
  }

  lemma SameTierEntersRooms(m: MState, t: nat, from: nat)
    requires MatchInv(m) && t < TIERS && AllInRooms(m, from)
    ensures AllInRooms(SameTier(m, t), from)
  {
    var live := Live(m, m.pending[t]);
    var m1 := m.(pending := m.pending[t := Leftover(live)]);
    LiveBatch(m, t, m1);
    PairUpEntersRooms(m1, live, t, from);
  }

  lemma CrossTierEntersRooms(m: MState, t: nat, now: Millis, from: nat)
    requires MatchInv(m) && t < TIERS - 1 && AllInRooms(m, from)
    ensures AllInRooms(CrossTier(m, t, now), from)
  {
    var m2 := DropBoth(m, t);
    var left, right := m2.pending[t], m2.pending[t + 1];
    if left != [] && right != [] {
      FinalizeEntersRooms(m.(pending := m.pending[t := left[1..]][t + 1 := right[1..]]), left[0], right[0], from);
    }
  }

  // Whoever is matched in a loop body has left the queue and is in a room when
  // the body is done.
  lemma MatchedPlayersEnterRooms(m: MState, now0: Millis, now1: Millis)
    requires MatchInv(m)
    ensures AllInRooms(LoopBody(m, now0, now1), |m.results|)
  {
    var n := |m.results|;
    var a := Drain(m);
    var b := SameTier(a, 0);
    var c := SameTier(b, 1);
    var d := SameTier(c, 2);
    var e := CrossTier(d, 0, now0);
    DrainKeepsInv(m);
    SameTierKeepsInv(a, 0);
    SameTierKeepsInv(b, 1);
    SameTierKeepsInv(c, 2);
    CrossTierKeepsInv(d, 0, now0);
    SameTierEntersRooms(a, 0, n);
    SameTierEntersRooms(b, 1, n);
    SameTierEntersRooms(c, 2, n);
    CrossTierEntersRooms(d, 0, now0, n);
    CrossTierEntersRooms(e, 1, now1, n);
  }
}
