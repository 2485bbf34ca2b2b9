// What holds of the matchmaker in every reachable state.
module MatchProofs {
  import opened Basics
  import opened Online
  import opened MatchSpec

  // ----- the invariant -----

  predicate Ordered(q: seq<Req>) {
    forall i, j :: 0 <= i < j < |q| ==> q[i].id < q[j].id
  }

  // Waiting requests of a tier: the pending ones, then the incoming ones.
  function Queue(m: MState, t: nat): seq<Req>
    requires t < TIERS
  {
    m.pending[t] + m.incoming[t]
  }

  predicate QueueOk(issued: map<nat, Req>, q: seq<Req>, t: nat) {
    && Ordered(q)
    && forall i :: 0 <= i < |q| ==> Issued(issued, q[i]) && TierOf(q[i].score) == t
  }

  predicate QueuesOk(m: MState) {
    && QueueOk(m.issued, Queue(m, 0), 0)
    && QueueOk(m.issued, Queue(m, 1), 1)
    && QueueOk(m.issued, Queue(m, 2), 2)
  }

  predicate IdOk(issued: map<nat, Req>, lastReq: nat, id: nat)
    requires id in issued
  {
    1 <= id <= lastReq && issued[id].id == id && !issued[id].cancelled
  }

  predicate IdsOk(issued: map<nat, Req>, lastReq: nat) {
    forall id {:trigger IdOk(issued, lastReq, id)} :: id in issued ==> IdOk(issued, lastReq, id)
  }

  // The map entry of a user describes an issued request.
  predicate EntryOk(issued: map<nat, Req>, reqs: map<UserId, Meta>, u: UserId)
    requires u in reqs
  {
    var e := reqs[u];
    e.id in issued && issued[e.id].user == u && e.tier == TierOf(issued[e.id].score) && e.time == issued[e.id].time
  }

  predicate EntriesOk(issued: map<nat, Req>, reqs: map<UserId, Meta>) {
    forall u {:trigger EntryOk(issued, reqs, u)} :: u in reqs ==> EntryOk(issued, reqs, u)
  }

  // A user is matching exactly when it has an entry.
  predicate StatusOk(online: Users, reqs: map<UserId, Meta>, u: UserId) {
    StatusOf(online, u) == Matching <==> u in reqs
  }

  ghost predicate StatusesOk(online: Users, reqs: map<UserId, Meta>) {
    forall u {:trigger StatusOk(online, reqs, u)} :: StatusOk(online, reqs, u)
  }

  // The request of the entry waits in the queue of its tier.
  predicate Waiting(m: MState, u: UserId)
    requires u in m.reqs
  {
    m.reqs[u].id in m.issued && m.reqs[u].tier < TIERS && m.issued[m.reqs[u].id] in Queue(m, m.reqs[u].tier)
  }

  predicate AllWait(m: MState, except: set<UserId>) {
    forall u {:trigger Waiting(m, u)} :: u in m.reqs && u !in except ==> Waiting(m, u)
  }

  function MatchedIds(results: seq<Pairing>): set<nat> {
    if results == [] then {} else
    var k := |results| - 1;
    MatchedIds(results[..k]) + {results[k].p1.id, results[k].p2.id}
  }

  // Every accepted request is queued under its user's entry, or matched, or
  // withdrawn: exactly one of the three.
  predicate Current(reqs: map<UserId, Meta>, r: Req) {
    r.user in reqs && reqs[r.user].id == r.id
  }

  predicate FateOk(issued: map<nat, Req>, reqs: map<UserId, Meta>, matched: set<nat>, withdrawn: set<nat>, id: nat)
    requires id in issued
  {
    && (id in matched || id in withdrawn || Current(reqs, issued[id]))
    && !(id in matched && id in withdrawn)
    && !(id in matched && Current(reqs, issued[id]))
    && !(id in withdrawn && Current(reqs, issued[id]))
  }

  predicate FatesOk(issued: map<nat, Req>, reqs: map<UserId, Meta>, matched: set<nat>, withdrawn: set<nat>) {
    && matched <= issued.Keys && withdrawn <= issued.Keys
    && (forall id {:trigger FateOk(issued, reqs, matched, withdrawn, id)} ::
      id in issued ==> FateOk(issued, reqs, matched, withdrawn, id))
  }

  predicate PairingOk(issued: map<nat, Req>, p: Pairing) {
    Issued(issued, p.p1) && Issued(issued, p.p2) && p.p1.user != p.p2.user
  }

  predicate SameTierOlder(r: Req, s: Req) {
    TierOf(r.score) == TierOf(s.score) ==> r.id < s.id
  }

  predicate Before(a: Pairing, b: Pairing) {
    SameTierOlder(a.p1, b.p1) && SameTierOlder(a.p1, b.p2) && SameTierOlder(a.p2, b.p1) && SameTierOlder(a.p2, b.p2)
  }

  // Results are made of issued requests and in the order of issue.
  predicate ResultsOk(issued: map<nat, Req>, results: seq<Pairing>, lastRoom: nat) {
    && lastRoom == 1000 + |results|
    && (forall k :: 0 <= k < |results| ==> PairingOk(issued, results[k]) && results[k].room == 1001 + k)
    && (forall j, k :: 0 <= j < k < |results| ==> Before(results[j], results[k]))
  }

  // Whoever still waits is younger than every matched request of its tier.
  predicate Younger(p: Pairing, e: Meta) {
    (TierOf(p.p1.score) == e.tier ==> p.p1.id < e.id) && (TierOf(p.p2.score) == e.tier ==> p.p2.id < e.id)
  }

  predicate Fair(results: seq<Pairing>, reqs: map<UserId, Meta>) {
    forall k, u {:trigger Younger(results[k], reqs[u])} ::
      0 <= k < |results| && u in reqs ==> Younger(results[k], reqs[u])
  }

  ghost predicate InvBut(m: MState, except: set<UserId>) {
    && QueuesOk(m)
    && IdsOk(m.issued, m.lastReq)
    && EntriesOk(m.issued, m.reqs)
    && StatusesOk(m.online, m.reqs)
    && AllWait(m, except)
    && FatesOk(m.issued, m.reqs, MatchedIds(m.results), m.withdrawn)
    && ResultsOk(m.issued, m.results, m.lastRoom)
    && Fair(m.results, m.reqs)
  }

  ghost predicate MatchInv(m: MState) {
    InvBut(m, {})
  }

  lemma EmptyMatcherInv(online: Users)
    requires forall u :: StatusOf(online, u) != Matching
    ensures MatchInv(EmptyMatcher(online))
  {
    var m := EmptyMatcher(online);
    assert Queue(m, 0) == [] && Queue(m, 1) == [] && Queue(m, 2) == [];
    assert MatchedIds(m.results) == {};
    assert ResultsOk(m.issued, m.results, m.lastRoom) && Fair(m.results, m.reqs);
    forall u
      ensures StatusOk(m.online, m.reqs, u)
    {
    }
  }

  // ----- reading the invariant -----

  lemma QueueAt(m: MState, t: nat)
    requires QueuesOk(m) && t < TIERS
    ensures QueueOk(m.issued, Queue(m, t), t)
  {
  }

  lemma InQueue(q: seq<Req>, r: Req) returns (i: nat)
    requires r in q
    ensures i < |q| && q[i] == r
  {
    i :| 0 <= i < |q| && q[i] == r;
  }

  // ----- enqueue -----

  lemma FreshId(m: MState)
    requires IdsOk(m.issued, m.lastReq)
    ensures m.lastReq + 1 !in m.issued
  {
    assert m.lastReq + 1 in m.issued ==> IdOk(m.issued, m.lastReq, m.lastReq + 1);
  }

  // Issuing a new identifier leaves a queue as good as it was.
  lemma QueueStaysOk(issued: map<nat, Req>, q: seq<Req>, t: nat, r: Req)
    requires QueueOk(issued, q, t) && r.id !in issued
    ensures QueueOk(issued[r.id := r], q, t)
  {
    forall i | 0 <= i < |q|
      ensures Issued(issued[r.id := r], q[i]) && TierOf(q[i].score) == t
    {
      assert Issued(issued, q[i]);
    }
  }

  lemma QueueGrows(issued: map<nat, Req>, lastReq: nat, q: seq<Req>, t: nat, r: Req)
    requires QueueOk(issued, q, t) && IdsOk(issued, lastReq) && r.id == lastReq + 1 && TierOf(r.score) == t
    requires r.id !in issued
    ensures QueueOk(issued[r.id := r], q + [r], t)
  {
    QueueStaysOk(issued, q, t, r);
    forall i | 0 <= i < |q|
      ensures q[i].id < r.id
    {
      assert Issued(issued, q[i]);
      assert IdOk(issued, lastReq, q[i].id);
    }
  }

  lemma IssueKeepsQueues(m: MState, r: Req)
    requires QueuesOk(m) && IdsOk(m.issued, m.lastReq) && r.id == m.lastReq + 1
    ensures QueuesOk(Issue(m, r))
  {
    FreshId(m);
    var t, m' := TierOf(r.score), Issue(m, r);
    QueueGrows(m.issued, m.lastReq, Queue(m, t), t, r);
    assert Queue(m', t) == Queue(m, t) + [r];
    QueueStaysOk(m.issued, Queue(m, 0), 0, r);
    QueueStaysOk(m.issued, Queue(m, 1), 1, r);
    QueueStaysOk(m.issued, Queue(m, 2), 2, r);
  }

  lemma IssueKeepsIds(m: MState, r: Req)
    requires IdsOk(m.issued, m.lastReq) && r.id == m.lastReq + 1 && !r.cancelled
    ensures IdsOk(Issue(m, r).issued, Issue(m, r).lastReq)
  {
    var m' := Issue(m, r);
    forall id | id in m'.issued
      ensures IdOk(m'.issued, m'.lastReq, id)
    {
      assert id in m.issued ==> IdOk(m.issued, m.lastReq, id);
    }
  }

  lemma IssueKeepsEntries(m: MState, r: Req)
    requires EntriesOk(m.issued, m.reqs) && r.id !in m.issued
    ensures EntriesOk(Issue(m, r).issued, Issue(m, r).reqs)
  {
    var m' := Issue(m, r);
    forall u | u in m'.reqs
      ensures EntryOk(m'.issued, m'.reqs, u)
    {
      assert u in m.reqs ==> EntryOk(m.issued, m.reqs, u);
    }
  }

  lemma IssueKeepsStatuses(m: MState, r: Req)
    requires StatusesOk(m.online, m.reqs) && r.user in m.online
    ensures StatusesOk(Issue(m, r).online, Issue(m, r).reqs)
  {
    var m' := Issue(m, r);
    forall u
      ensures StatusOk(m'.online, m'.reqs, u)
    {
      assert StatusOk(m.online, m.reqs, u);
    }
  }

  lemma IssueKeepsWaiting(m: MState, r: Req)
    requires AllWait(m, {}) && r.id !in m.issued
    ensures AllWait(Issue(m, r), {})
  {
    var m' := Issue(m, r);
    forall u | u in m'.reqs
      ensures Waiting(m', u)
    {
      assert u in m.reqs ==> Waiting(m, u);
    }
  }

  lemma IssueKeepsFates(m: MState, r: Req)
    requires FatesOk(m.issued, m.reqs, MatchedIds(m.results), m.withdrawn)
    requires r.user !in m.reqs && r.id !in m.issued && IdsOk(m.issued, m.lastReq)
    ensures FatesOk(Issue(m, r).issued, Issue(m, r).reqs, MatchedIds(m.results), m.withdrawn)
  {
    var m', matched := Issue(m, r), MatchedIds(m.results);
    forall id | id in m'.issued
      ensures FateOk(m'.issued, m'.reqs, matched, m.withdrawn, id)
    {
      assert id in m.issued ==> FateOk(m.issued, m.reqs, matched, m.withdrawn, id) && IdOk(m.issued, m.lastReq, id);
    }
  }

  lemma IssueKeepsResults(m: MState, r: Req)
    requires ResultsOk(m.issued, m.results, m.lastRoom) && r.id !in m.issued
    ensures ResultsOk(Issue(m, r).issued, m.results, m.lastRoom)
  {
    forall k | 0 <= k < |m.results|
      ensures PairingOk(Issue(m, r).issued, m.results[k])
    {
      assert PairingOk(m.issued, m.results[k]);
    }
  }

  lemma IssueKeepsFair(m: MState, r: Req)
    requires Fair(m.results, m.reqs) && ResultsOk(m.issued, m.results, m.lastRoom)
    requires IdsOk(m.issued, m.lastReq) && r.id == m.lastReq + 1
    ensures Fair(m.results, Issue(m, r).reqs)
  {
    var m' := Issue(m, r);
    forall k, u | 0 <= k < |m.results| && u in m'.reqs
      ensures Younger(m.results[k], m'.reqs[u])
    {
      assert PairingOk(m.issued, m.results[k]);
      assert IdOk(m.issued, m.lastReq, m.results[k].p1.id);
      assert IdOk(m.issued, m.lastReq, m.results[k].p2.id);
      if u == r.user {
        assert m'.reqs[u].id == r.id;
      } else {
        assert Younger(m.results[k], m.reqs[u]);
      }
    }
  }

  lemma IssueKeepsInv(m: MState, u: UserId, score: int, now: Millis)
    requires MatchInv(m) && u in m.online && u !in m.reqs
    ensures MatchInv(Issue(m, Req(u, score, now, m.lastReq + 1, false)))
  {
    var r := Req(u, score, now, m.lastReq + 1, false);
    FreshId(m);
    IssueKeepsQueues(m, r);
    IssueKeepsIds(m, r);
    IssueKeepsEntries(m, r);
    IssueKeepsStatuses(m, r);
    IssueKeepsWaiting(m, r);
    IssueKeepsFates(m, r);
    IssueKeepsResults(m, r);
    IssueKeepsFair(m, r);
  }

  lemma EnqueueKeepsInv(m: MState, u: UserId, score: int, now: Millis, leaves: bool)
    requires MatchInv(m)
    ensures MatchInv(Enqueue(m, u, score, now, leaves).0)
  {
    if StatusOf(m.online, u) == HallIdle && u !in m.reqs {
      if leaves {
        WithdrawKeepsInv(m, u, m.online - {u});
        assert m.reqs - {u} == m.reqs;
        CounterMayGrow(m.(online := m.online - {u}));
      } else {
        IssueKeepsInv(m, u, score, now);
      }
    } else {
      CounterMayGrow(m);
    }
  }

  lemma CounterMayGrow(m: MState)
    requires MatchInv(m)
    ensures MatchInv(m.(lastReq := m.lastReq + 1))
  {
    var m' := m.(lastReq := m.lastReq + 1);
    forall id | id in m'.issued
      ensures IdOk(m'.issued, m'.lastReq, id)
    {
      assert IdOk(m.issued, m.lastReq, id);
    }
    forall u | u in m'.reqs
      ensures Waiting(m', u)
    {
      assert Waiting(m, u);
    }
  }

  // ----- cancel, disconnect, other components -----

  // The entry of u goes away, and u with it or into another status.
  function Withdraw(m: MState, u: UserId, online: Users): MState {
    m.(
      online := online,
      reqs := m.reqs - {u},
      withdrawn := if u in m.reqs then m.withdrawn + {m.reqs[u].id} else m.withdrawn)
  }

  lemma CancelIsWithdraw(m: MState, u: UserId)
    ensures u in m.reqs ==> Cancel(m, u).0 == Withdraw(m, u, WithStatus(m.online, u, HallIdle))
    ensures Disconnect(m, u) == Withdraw(m, u, m.online - {u})
  {
    assert u !in m.reqs ==> m.reqs - {u} == m.reqs;
  }

  lemma FewerEntries(m: MState, m': MState)
    requires m'.issued == m.issued && m'.results == m.results && m'.pending == m.pending && m'.incoming == m.incoming
    requires m'.reqs.Keys <= m.reqs.Keys && forall u :: u in m'.reqs ==> m'.reqs[u] == m.reqs[u]
    ensures EntriesOk(m.issued, m.reqs) ==> EntriesOk(m'.issued, m'.reqs)
    ensures AllWait(m, {}) ==> AllWait(m', {})
    ensures Fair(m.results, m.reqs) ==> Fair(m'.results, m'.reqs)
  {
    if EntriesOk(m.issued, m.reqs) {
      forall u | u in m'.reqs
        ensures EntryOk(m'.issued, m'.reqs, u)
      {
        assert EntryOk(m.issued, m.reqs, u);
      }
    }
    if AllWait(m, {}) {
      forall u | u in m'.reqs
        ensures Waiting(m', u)
      {
        assert Waiting(m, u);
      }
    }
    if Fair(m.results, m.reqs) {
      forall k, u | 0 <= k < |m'.results| && u in m'.reqs
        ensures Younger(m'.results[k], m'.reqs[u])
      {
        assert Younger(m.results[k], m.reqs[u]);
      }
    }
  }

  lemma WithdrawKeepsFates(m: MState, u: UserId, online: Users)
    requires FatesOk(m.issued, m.reqs, MatchedIds(m.results), m.withdrawn) && EntriesOk(m.issued, m.reqs)
    requires IdsOk(m.issued, m.lastReq)
    ensures
      var m' := Withdraw(m, u, online);
      FatesOk(m'.issued, m'.reqs, MatchedIds(m'.results), m'.withdrawn)
  {
    var m', matched := Withdraw(m, u, online), MatchedIds(m.results);
    assert u in m.reqs ==> EntryOk(m.issued, m.reqs, u);
    assert u in m.reqs ==> IdOk(m.issued, m.lastReq, m.reqs[u].id);
    assert u in m.reqs ==> FateOk(m.issued, m.reqs, matched, m.withdrawn, m.reqs[u].id);
    forall id | id in m'.issued
      ensures FateOk(m'.issued, m'.reqs, matched, m'.withdrawn, id)
    {
      assert FateOk(m.issued, m.reqs, matched, m.withdrawn, id);
      assert IdOk(m.issued, m.lastReq, id);
    }
  }

  lemma WithdrawKeepsInv(m: MState, u: UserId, online: Users)
    requires MatchInv(m)
    requires StatusOf(online, u) != Matching && forall v :: v != u ==> StatusOf(online, v) == StatusOf(m.online, v)
    ensures MatchInv(Withdraw(m, u, online))
  {
    var m' := Withdraw(m, u, online);
    FewerEntries(m, m');
    WithdrawKeepsFates(m, u, online);
    forall v
      ensures StatusOk(m'.online, m'.reqs, v)
    {
      assert StatusOk(m.online, m.reqs, v);
    }
  }

  lemma CancelKeepsInv(m: MState, u: UserId)
    requires MatchInv(m)
    ensures MatchInv(Cancel(m, u).0) && MatchInv(Disconnect(m, u))
  {
    CancelIsWithdraw(m, u);
    if u in m.reqs {
      WithdrawKeepsInv(m, u, WithStatus(m.online, u, HallIdle));
    }
    WithdrawKeepsInv(m, u, m.online - {u});
  }

  lemma StatusKeepsInv(m: MState, online: Users)
    requires MatchInv(m) && Permitted(m, MStatus(online))
    ensures MatchInv(m.(online := online))
  {
    var m' := m.(online := online);
    FewerEntries(m, m');
    forall u
      ensures StatusOk(m'.online, m'.reqs, u)
    {
      assert StatusOk(m.online, m.reqs, u);
    }
  }

  // ----- drain -----

  lemma DrainKeepsInv(m: MState)
    requires MatchInv(m)
    ensures MatchInv(Drain(m))
  {
    var m' := Drain(m);
    assert Queue(m', 0) == Queue(m, 0) && Queue(m', 1) == Queue(m, 1) && Queue(m', 2) == Queue(m, 2);
    forall u | u in m'.reqs
      ensures Waiting(m', u)
    {
      assert Waiting(m, u);
    }
  }

  // ----- queues get shorter -----

  // One pending queue changes; it stays in order and keeps every live request,
  // except those of the users in `except`.
  lemma ReplaceQueue(m: MState, t: nat, q: seq<Req>, except: set<UserId>)
    requires InvBut(m, except) && t < TIERS && Ordered(q + m.incoming[t])
    requires forall r :: r in q ==> r in m.pending[t]
    requires forall r :: r in m.pending[t] && IsLive(m, r) && r.user !in except ==> r in q
    ensures InvBut(m.(pending := m.pending[t := q]), except)
  {
    var m' := m.(pending := m.pending[t := q]);
    QueueAt(m, t);
    forall i | 0 <= i < |Queue(m', t)|
      ensures Issued(m.issued, Queue(m', t)[i]) && TierOf(Queue(m', t)[i].score) == t
    {
      assert Queue(m', t)[i] in Queue(m, t);
    }
    assert forall s :: 0 <= s < TIERS && s != t ==> Queue(m', s) == Queue(m, s);
    forall u | u in m'.reqs && u !in except
      ensures Waiting(m', u)
    {
      assert Waiting(m, u) && EntryOk(m.issued, m.reqs, u) && IdOk(m.issued, m.lastReq, m.reqs[u].id);
      assert StatusOk(m.online, m.reqs, u);
      assert IsLive(m, m.issued[m.reqs[u].id]);
    }
  }

  // ----- a match -----

  lemma MatchedIn(results: seq<Pairing>, k: nat)
    requires k < |results|
    ensures results[k].p1.id in MatchedIds(results) && results[k].p2.id in MatchedIds(results)
  {
    if k < |results| - 1 {
      assert results[..|results| - 1][k] == results[k];
      MatchedIn(results[..|results| - 1], k);
    }
  }

  lemma MatchedGrows(results: seq<Pairing>, p: Pairing)
    ensures MatchedIds(results + [p]) == MatchedIds(results) + {p.p1.id, p.p2.id}
  {
    assert (results + [p])[..|results|] == results;
  }

  // p is issued, live, and the oldest of its tier but for the partner q.
  ghost predicate Next(m: MState, p: Req, q: Req) {
    && Issued(m.issued, p) && Current(m.reqs, p) && p.user in m.online
    && forall u :: u in m.reqs && u != p.user && u != q.user && m.reqs[u].tier == TierOf(p.score) ==> p.id < m.reqs[u].id
  }

  // The fate of one request: unchanged, but for the two.
  lemma FateAfter(m: MState, p1: Req, p2: Req, matched: set<nat>, id: nat)
    requires id in m.issued && FateOk(m.issued, m.reqs, matched, m.withdrawn, id) && IdOk(m.issued, m.lastReq, id)
    requires Issued(m.issued, p1) && Current(m.reqs, p1) && Issued(m.issued, p2) && Current(m.reqs, p2)
    ensures FateOk(m.issued, m.reqs - {p1.user} - {p2.user}, matched + {p1.id, p2.id}, m.withdrawn, id)
  {
  }

  lemma FinalizeKeepsFates(m: MState, p1: Req, p2: Req)
    requires FatesOk(m.issued, m.reqs, MatchedIds(m.results), m.withdrawn)
    requires IdsOk(m.issued, m.lastReq)
    requires Next(m, p1, p2) && Next(m, p2, p1) && p1.user != p2.user
    ensures
      var m' := Finalize(m, p1, p2);
      FatesOk(m'.issued, m'.reqs, MatchedIds(m'.results), m'.withdrawn)
  {
    var m', matched := Finalize(m, p1, p2), MatchedIds(m.results);
    MatchedGrows(m.results, Pairing(m.lastRoom + 1, p1, p2));
    forall id | id in m'.issued
      ensures FateOk(m'.issued, m'.reqs, matched + {p1.id, p2.id}, m'.withdrawn, id)
    {
      assert FateOk(m.issued, m.reqs, matched, m.withdrawn, id) && IdOk(m.issued, m.lastReq, id);
      FateAfter(m, p1, p2, matched, id);
    }
  }

  lemma FinalizeKeepsResults(m: MState, p1: Req, p2: Req)
    requires ResultsOk(m.issued, m.results, m.lastRoom) && Fair(m.results, m.reqs) && EntriesOk(m.issued, m.reqs)
    requires Next(m, p1, p2) && Next(m, p2, p1) && p1.user != p2.user
    ensures ResultsOk(m.issued, Finalize(m, p1, p2).results, m.lastRoom + 1)
  {
    var results := Finalize(m, p1, p2).results;
    var n := |m.results|;
    assert EntryOk(m.issued, m.reqs, p1.user) && EntryOk(m.issued, m.reqs, p2.user);
    forall j, k | 0 <= j < k < |results|
      ensures Before(results[j], results[k])
    {
      if k == n {
        assert Younger(m.results[j], m.reqs[p1.user]) && Younger(m.results[j], m.reqs[p2.user]);
      } else {
        assert Before(m.results[j], m.results[k]);
      }
    }
    forall k | 0 <= k < |results|
      ensures PairingOk(m.issued, results[k]) && results[k].room == 1001 + k
    {
      assert k < n ==> PairingOk(m.issued, m.results[k]);
    }
  }

  lemma FinalizeKeepsFair(m: MState, p1: Req, p2: Req)
    requires Fair(m.results, m.reqs) && Next(m, p1, p2) && Next(m, p2, p1)
    ensures Fair(Finalize(m, p1, p2).results, Finalize(m, p1, p2).reqs)
  {
    var m' := Finalize(m, p1, p2);
    forall k, u | 0 <= k < |m'.results| && u in m'.reqs
      ensures Younger(m'.results[k], m'.reqs[u])
    {
      assert k < |m.results| ==> Younger(m.results[k], m.reqs[u]);
    }
  }

  lemma FinalizeKeepsStatuses(m: MState, p1: Req, p2: Req)
    requires StatusesOk(m.online, m.reqs) && p1.user in m.online && p2.user in m.online
    ensures StatusesOk(Finalize(m, p1, p2).online, Finalize(m, p1, p2).reqs)
  {
    var m' := Finalize(m, p1, p2);
    forall u
      ensures StatusOk(m'.online, m'.reqs, u)
    {
      assert StatusOk(m.online, m.reqs, u);
    }
  }

  lemma FinalizeKeepsInv(m: MState, p1: Req, p2: Req, except: set<UserId>, except': set<UserId>)
    requires InvBut(m, except) && except <= except' + {p1.user, p2.user}
    requires Next(m, p1, p2) && Next(m, p2, p1) && p1.user != p2.user
    ensures InvBut(Finalize(m, p1, p2), except')
  {
    var m' := Finalize(m, p1, p2);
    FinalizeKeepsFates(m, p1, p2);
    FinalizeKeepsResults(m, p1, p2);
    FinalizeKeepsFair(m, p1, p2);
    FinalizeKeepsStatuses(m, p1, p2);
    forall u | u in m'.reqs
      ensures EntryOk(m'.issued, m'.reqs, u)
    {
      assert EntryOk(m.issued, m.reqs, u);
    }
    forall u | u in m'.reqs && u !in except'
      ensures Waiting(m', u)
    {
      assert Waiting(m, u);
    }
  }
}
