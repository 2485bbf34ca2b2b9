// The two models of the matchmaker agree on enqueue and cancel: a call that nobody
// disturbs does, step by step, what the one-step call does at once.
module MatchMicroCalls {
  import opened Basics
  import opened Online
  import opened MatchSpec
  import opened MatchMicro
  import opened MatchMicroTheorems

  // The world shows the matchmaker m.
  predicate Shows(w: World, m: MState) {
    && w.online == m.online && w.reqs == m.reqs && w.incoming == m.incoming && w.pending == m.pending
    && w.lastReq == m.lastReq && w.lastRoom == m.lastRoom && w.results == m.results
  }

  // Only one call moves; `leaves` is the one disturbance that the one-step call
  // knows of: its user goes offline.
  predicate OneCall(es: seq<MicroEvent>, u: UserId, online: Users, leaves: bool) {
    forall k :: 0 <= k < |es| ==>
      && !es[k].Thread?
      && (es[k].Asks? ==> es[k].a.user == u)
      && (es[k].Erases? ==> es[k].u == u)
      && (es[k].Others? ==> leaves && es[k].online == online - {u})
  }

  // es leads from w to w' by steps of one call.
  ghost predicate CallRun(w: World, es: seq<MicroEvent>, w': World, u: UserId, online: Users, leaves: bool) {
    MicroRunOk(w, es) && MicroRun(w, es) == w' && OneCall(es, u, online, leaves)
  }

  lemma Begin(w: World, u: UserId, online: Users, leaves: bool)
    ensures CallRun(w, [], w, u, online, leaves)
  {
  }

  lemma And(w: World, es: seq<MicroEvent>, w1: World, e: MicroEvent, u: UserId, online: Users, leaves: bool)
    requires CallRun(w, es, w1, u, online, leaves) && CanHappen(w1, e) && OneCall([e], u, online, leaves)
    ensures CallRun(w, es + [e], MicroStep(w1, e), u, online, leaves)
  {
    OneMore(w, es, e);
    assert [e][0] == e;
    forall k | 0 <= k < |es + [e]|
      ensures (es + [e])[k] == if k < |es| then es[k] else e
    {
    }
  }

  // ----- enqueue -----

  // Up to the map: the status is read, the identifier taken, the entry made.
  lemma EntersMap(w: World, u: UserId, score: int, now: Millis, leaves: bool) returns (es: seq<MicroEvent>, w': World)
    requires NoCalls(w) && StatusOf(w.online, u) == HallIdle
    ensures CallRun(w, es, w', u, w.online, leaves)
    ensures
      var r := Req(u, score, now, w.lastReq + 1, false);
      var w1 := w.(lastReq := r.id, issued := w.issued[r.id := r]);
      w' ==
        if u in w.reqs then w1
        else w1.(reqs := w.reqs[u := Meta(TierOf(score), r.id, now)], mapped := [r], entered := w.entered + {r.id})
  {
    var r := Req(u, score, now, w.lastReq + 1, false);
    Begin(w, u, w.online, leaves);
    LastOne(Ask(u, score));
    LastOne(r);
    assert [] + [Ask(u, score)] == [Ask(u, score)] && [] + [r] == [r];
    var w1 := w.(asked := [Ask(u, score)]);
    assert MicroStep(w, Asks(Ask(u, score))) == w1;
    And(w, [], w, Asks(Ask(u, score)), u, w.online, leaves);
    var w2 := w.(lastReq := r.id, held := [r], issued := w.issued[r.id := r]);
    assert MicroStep(w1, Takes(0, now)) == w2;
    And(w, [] + [Asks(Ask(u, score))], w1, Takes(0, now), u, w.online, leaves);
    es := [] + [Asks(Ask(u, score))] + [Takes(0, now)];
    And(w, es, w2, Enters(0), u, w.online, leaves);
    es := es + [Enters(0)];
    w' := MicroStep(w2, Enters(0));
  }

  // With the entry made: the status is set and the request pushed.
  lemma Completes(w: World, es: seq<MicroEvent>, w1: World, r: Req, online: Users) returns (fs: seq<MicroEvent>, w': World)
    requires CallRun(w, es, w1, r.user, online, false) && NoCalls(w1.(mapped := [])) && w1.mapped == [r]
    requires r.user in w1.online
    ensures CallRun(w, fs, w', r.user, online, false)
    ensures
      var t := TierOf(r.score);
      w' == w1.(mapped := [], online := w1.online[r.user := Matching],
        incoming := w1.incoming[t := w1.incoming[t] + [r]], accepted := w1.accepted + {r.id})
  {
    LastOne(r);
    assert [] + [r] == [r];
    var w2 := w1.(mapped := [], marked := [r], online := w1.online[r.user := Matching]);
    assert MicroStep(w1, Marks(0)) == w2;
    And(w, es, w1, Marks(0), r.user, online, false);
    And(w, es + [Marks(0)], w2, Pushes(0), r.user, online, false);
    fs := es + [Marks(0)] + [Pushes(0)];
    w' := MicroStep(w2, Pushes(0));
  }

  // With the entry made, the user leaves: the entry is taken back.
  lemma TakesBack(w: World, es: seq<MicroEvent>, w1: World, r: Req, online: Users) returns (fs: seq<MicroEvent>, w': World)
    requires CallRun(w, es, w1, r.user, online, true) && NoCalls(w1.(mapped := [])) && w1.mapped == [r] && w1.online == online
    ensures CallRun(w, fs, w', r.user, online, true)
    ensures w' == w1.(mapped := [], online := online - {r.user}, reqs := w1.reqs - {r.user})
  {
    LastOne(r);
    LastOne(r.user);
    assert [] + [r] == [r] && [] + [r.user] == [r.user];
    var off := Others(online - {r.user});
    var w2 := w1.(online := online - {r.user});
    And(w, es, w1, off, r.user, online, true);
    var w3 := w2.(mapped := [], undoing := [r.user]);
    assert MicroStep(w2, Marks(0)) == w3;
    And(w, es + [off], w2, Marks(0), r.user, online, true);
    And(w, es + [off] + [Marks(0)], w3, Undoes(0), r.user, online, true);
    fs := es + [off] + [Marks(0)] + [Undoes(0)];
    w' := MicroStep(w3, Undoes(0));
  }

  // The steps of one enqueue compute the one-step enqueue, and it is accepted in
  // the one model exactly when it is in the other.
  lemma UndisturbedEnqueue(w: World, m: MState, u: UserId, score: int, now: Millis, leaves: bool)
    returns (es: seq<MicroEvent>, w': World)
    requires NoCalls(w) && Shows(w, m)
    ensures CallRun(w, es, w', u, w.online, leaves) && NoCalls(w') && w'.pc == w.pc
    ensures
      var (m', ok) := Enqueue(m, u, score, now, leaves);
      Shows(w', m') && w'.accepted == if ok then w.accepted + {m.lastReq + 1} else w.accepted
  {
    Begin(w, u, w.online, leaves);
    if StatusOf(w.online, u) != HallIdle {
      And(w, [], w, Asks(Ask(u, score)), u, w.online, leaves);
      es, w' := [] + [Asks(Ask(u, score))], w;
    } else {
      es, w' := EntersMap(w, u, score, now, leaves);
      if u !in w.reqs {
        var r := Req(u, score, now, w.lastReq + 1, false);
        if leaves {
          es, w' := TakesBack(w, es, w', r, w.online);
          assert w.reqs[u := Meta(TierOf(score), r.id, now)] - {u} == w.reqs;
        } else {
          es, w' := Completes(w, es, w', r, w.online);
        }
      }
    }
  }

  // ----- cancel -----

  // The steps of one cancel compute the one-step cancel.
  lemma UndisturbedCancel(w: World, m: MState, u: UserId) returns (es: seq<MicroEvent>, w': World)
    requires NoCalls(w) && Shows(w, m)
    ensures CallRun(w, es, w', u, w.online, false) && NoCalls(w') && w'.pc == w.pc
    ensures Shows(w', Cancel(m, u).0)
  {
    Begin(w, u, w.online, false);
    And(w, [], w, Erases(u), u, w.online, false);
    es, w' := [] + [Erases(u)], EraseStep(w, u);
    if u in w.reqs {
      LastOne(u);
      assert [] + [u] == [u];
      And(w, es, w', Looks(0), u, w.online, false);
      es, w' := es + [Looks(0)], LookStep(w', 0);
      if u in w.online {
        And(w, es, w', Resets(0), u, w.online, false);
        es, w' := es + [Resets(0)], ResetStep(w', 0);
      }
    }
  }
}
