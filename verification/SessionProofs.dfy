// What holds of the session layer in every reachable state.
module SessionProofs {
  import opened Basics
  import opened ScoreTable
  import opened Game
  import opened GameProofs
  import opened MatchSpec
  import opened Session

  // ----- the maps -----

  // Handles and users are in one-to-one correspondence.
  predicate HandleOk(s: Sessions, h: Handle)
    requires h in s.users
  {
    s.users[h] > 0 && s.users[h] in s.conns && s.conns[s.users[h]] == h
  }

  predicate UserOk(s: Sessions, u: UserId)
    requires u in s.conns
  {
    s.conns[u] in s.users && s.users[s.conns[u]] == u
  }

  predicate Inverse(s: Sessions) {
    && (forall h {:trigger HandleOk(s, h)} :: h in s.users ==> HandleOk(s, h))
    && (forall u {:trigger UserOk(s, u)} :: u in s.conns ==> UserOk(s, u))
  }

  // Who is connected is online; who is online is connected or in grace; and
  // nobody waits for a match without being online.
  predicate Covered(s: Sessions) {
    && s.conns.Keys <= s.game.online.Keys
    && s.game.online.Keys <= s.conns.Keys + s.pending.Keys
  }

  predicate QueueFits(s: Sessions) {
    s.queue.online == s.game.online && s.queue.reqs.Keys <= s.game.online.Keys
  }

  ghost predicate SessionInv(s: Sessions) {
    Inverse(s) && Covered(s) && QueueFits(s) && GameInv(s.game)
  }

  // A server that has just been started.
  lemma EmptySessionsInv(rows: map<UserId, Row>)
    requires WinsWithinTotals(rows)
    ensures SessionInv(Sessions(map[], map[], map[], EmptyGame(rows), EmptyMatcher(map[])))
  {
    EmptyGameInv(rows);
  }

  lemma InverseMeans(s: Sessions, h: Handle, u: UserId)
    requires Inverse(s)
    ensures (h in s.users && s.users[h] == u) <==> (u in s.conns && s.conns[u] == h)
  {
    assert h in s.users ==> HandleOk(s, h);
    assert u in s.conns ==> UserOk(s, u);
  }

  // Authenticating a handle keeps the correspondence exactly when the handle
  // did not belong to somebody else.
  lemma AuthKeepsInverseIff(s: Sessions, u: UserId, h: Handle)
    requires Inverse(s) && u > 0
    ensures Inverse(SetUserConnection(s, u, h)) <==> OneUserPerHandle(s, u, h)
  {
    var s' := SetUserConnection(s, u, h);
    if OneUserPerHandle(s, u, h) {
      forall x | x in s'.users
        ensures HandleOk(s', x)
      {
        assert x in s.users ==> HandleOk(s, x);
      }
      forall v | v in s'.conns
        ensures UserOk(s', v)
      {
        assert v in s.conns ==> UserOk(s, v);
        assert h in s.users ==> HandleOk(s, h);
      }
    } else {
      assert HandleOk(s, h);
      var v := s.users[h];
      assert !UserOk(s', v);
    }
  }

  lemma RemovalKeepsInverse(s: Sessions, h: Handle)
    requires Inverse(s) && h in s.users
    ensures s.users[h] in s.conns && s.conns[s.users[h]] == h && s.users[h] > 0
    ensures Inverse(s.(users := s.users - {h}, conns := s.conns - {s.users[h]}))
  {
    assert HandleOk(s, h);
    var s' := s.(users := s.users - {h}, conns := s.conns - {s.users[h]});
    forall x | x in s'.users
      ensures HandleOk(s', x)
    {
      assert HandleOk(s, x);
    }
    forall v | v in s'.conns
      ensures UserOk(s', v)
    {
      assert UserOk(s, v);
    }
  }

  // Only the maps matter for the correspondence.
  lemma SameMapsSameInverse(s: Sessions, s': Sessions)
    requires Inverse(s) && s'.users == s.users && s'.conns == s.conns
    ensures Inverse(s')
  {
    forall x | x in s'.users
      ensures HandleOk(s', x)
    {
      assert HandleOk(s, x);
    }
    forall v | v in s'.conns
      ensures UserOk(s', v)
    {
      assert UserOk(s, v);
    }
  }

  // ----- the status map through the game -----

  // No event of the game itself makes anybody go online or offline.
  lemma PlainKeepsOnline(g: Game, e: GameEvent)
    requires BoardsOk(g) && Plain(e)
    ensures GameStep(g, e).online.Keys == g.online.Keys
  {
  }

  lemma LoseKeepsOnline(g: Game, u: UserId)
    ensures Lose(g, u).online == g.online
  {
  }

  lemma LoseAndCleanup(g: Game, u: UserId)
    requires GameInv(g)
    ensures GameInv(Lose(g, u))
    ensures
      var g1 := Lose(g, u);
      var g2 := g1.(online := g1.online - {u});
      GameInv(g2) && Cleanup(g2, u) == g2
  {
    LoseKeepsInv(g, u);
    var g1 := Lose(g, u);
    CleanupDoesNothing(g1.(online := g1.online - {u}), u);
  }

  lemma LeavingQueue(m: MState, u: UserId)
    ensures Disconnect(m, u).online == m.online - {u} && Disconnect(m, u).reqs == m.reqs - {u}
  {
  }

  // A completed disconnect: flag, no connection, offline, not waiting.
  lemma DisconnectIs(s: Sessions, u: UserId)
    requires GameInv(s.game) && QueueFits(s)
    ensures
      var s' := ExecuteDisconnect(s, u);
      && s'.game == Lose(s.game, u).(online := s.game.online - {u})
      && s'.queue == Disconnect(s.queue, u) && s'.queue.reqs == s.queue.reqs - {u}
      && s'.conns == s.conns - {u} && s'.users == s.users && s'.pending == s.pending
    ensures GameInv(ExecuteDisconnect(s, u).game) && QueueFits(ExecuteDisconnect(s, u))
  {
    LoseKeepsOnline(s.game, u);
    LoseAndCleanup(s.game, u);
    LeavingQueue(s.queue, u);
  }

  // ----- the statuses through the matchmaker -----

  lemma {:induction false} PairingKeepsOnline(m: MState, live: seq<Req>)
    ensures PairUp(m, live).online.Keys == m.online.Keys && PairUp(m, live).reqs.Keys <= m.reqs.Keys
    decreases |live|
  {
    if |live| >= 2 {
      PairingKeepsOnline(Finalize(m, live[0], live[1]), live[2..]);
    }
  }

  lemma PassKeepsOnline(m: MState, t: nat)
    requires t < TIERS
    ensures SameTier(m, t).online.Keys == m.online.Keys && SameTier(m, t).reqs.Keys <= m.reqs.Keys
  {
    var live := Live(m, m.pending[t]);
    PairingKeepsOnline(m.(pending := m.pending[t := Leftover(live)]), live);
  }

  lemma CrossKeepsOnline(m: MState, t: nat, now: Millis)
    requires t < TIERS - 1
    ensures CrossTier(m, t, now).online.Keys == m.online.Keys && CrossTier(m, t, now).reqs.Keys <= m.reqs.Keys
  {
  }

  // The match loop makes nobody go online or offline, and lets nobody wait anew.
  lemma LoopKeepsOnline(m: MState, now0: Millis, now1: Millis)
    ensures LoopBody(m, now0, now1).online.Keys == m.online.Keys && LoopBody(m, now0, now1).reqs.Keys <= m.reqs.Keys
  {
    PassKeepsOnline(Drain(m), 0);
    PassKeepsOnline(SameTier(Drain(m), 0), 1);
    PassKeepsOnline(SameTier(SameTier(Drain(m), 0), 1), 2);
    CrossKeepsOnline(SameTiers(m), 0, now0);
    CrossKeepsOnline(CrossTier(SameTiers(m), 0, now0), 1, now1);
  }

  lemma EnqueueKeepsOnline(m: MState, u: UserId, score: int, now: Millis)
    ensures
      var m' := Enqueue(m, u, score, now, false).0;
      && m'.online.Keys == m.online.Keys
      && (m'.reqs.Keys <= m.reqs.Keys || (u in m.online && m'.reqs.Keys <= m.reqs.Keys + {u}))
  {
  }

  // ----- one lemma per handler -----

  lemma SetConnectionKeepsInv(s: Sessions, u: UserId, h: Handle)
    requires SessionInv(s) && u > 0 && OneUserPerHandle(s, u, h)
    ensures SessionInv(SetUserConnection(s, u, h))
  {
    AuthKeepsInverseIff(s, u, h);
  }

  // The matchmaker moves on, and only statuses and entries change.
  lemma QueueStepKeepsInv(s: Sessions, m: MState)
    requires SessionInv(s) && m.online.Keys == s.game.online.Keys && m.reqs.Keys <= m.online.Keys
    ensures SessionInv(WithQueue(s, m))
  {
    SameMapsSameInverse(s, WithQueue(s, m));
    GameStepKeepsInv(s.game, EOnline(m.online));
  }

  lemma StartWaitingKeepsInv(s: Sessions, u: UserId, score: int, now: Millis)
    requires SessionInv(s)
    ensures SessionInv(StartWaiting(s, u, score, now).0)
  {
    EnqueueKeepsOnline(s.queue, u, score, now);
    QueueStepKeepsInv(s, Enqueue(s.queue, u, score, now, false).0);
  }

  lemma MatchStartKeepsInv(s: Sessions, u: UserId, h: Handle, score: int, now: Millis)
    requires SessionInv(s)
    ensures SessionInv(MatchStart(s, u, h, score, now).0)
  {
    if UserOf(s, h) > 0 {
      StartWaitingKeepsInv(s, UserOf(s, h), score, now);
    } else if u > 0 {
      assert h in s.users ==> HandleOk(s, h);
      SetConnectionKeepsInv(s, u, h);
      StartWaitingKeepsInv(SetUserConnection(s, u, h), u, score, now);
    }
  }

  lemma MatchCancelKeepsInv(s: Sessions, h: Handle)
    requires SessionInv(s)
    ensures SessionInv(MatchCancel(s, h).0)
  {
    QueueStepKeepsInv(s, Cancel(s.queue, UserOf(s, h)).0);
  }

  lemma CloseKeepsInv(s: Sessions, h: Handle, now: Time)
    requires SessionInv(s)
    ensures SessionInv(OnClose(s, h, now))
  {
    if h in s.users {
      var u := s.users[h];
      RemovalKeepsInverse(s, h);
      var s2 := s.(users := s.users - {h}, conns := s.conns - {u});
      var s' := OnClose(s, h, now);
      if !HasActiveRoom(s.game, u) {
        DisconnectIs(s2, u);
        assert s2.conns - {u} == s2.conns;
      }
      SameMapsSameInverse(s2, s');
    }
  }

  lemma CommitKeepsInv(s: Sessions, u: UserId)
    requires SessionInv(s) && u in s.conns
    ensures SessionInv(CommitPending(s, u))
  {
    LoseAndCleanup(s.game, u);
    LoseKeepsOnline(s.game, u);
    SameMapsSameInverse(s, CommitPending(s, u));
  }

  lemma AuthKeepsInv(s: Sessions, u: UserId, h: Handle, hall: bool)
    requires SessionInv(s) && OneUserPerHandle(s, u, h)
    ensures SessionInv(Auth(s, u, h, hall).0)
  {
    if u > 0 {
      SetConnectionKeepsInv(s, u, h);
      CommitKeepsInv(SetUserConnection(s, u, h), u);
    }
  }

  lemma ReconnectKeepsOnline(g: Game, u: UserId)
    requires BoardsOk(g)
    ensures Reconnect(g, u).online == g.online
  {
  }

  // game.reconnect is sent on an authenticated connection.
  lemma ReturnKeepsInv(s: Sessions, u: UserId)
    requires SessionInv(s) && u in s.conns
    ensures BoardsOk(s.game) && SessionInv(Return(s, u))
  {
    InvGivesBoards(s.game);
    ReconnectKeepsInv(s.game, u);
    ReconnectKeepsOnline(s.game, u);
    SameMapsSameInverse(s, Return(s, u));
  }

  // While a flush is going on, the users still to be handled count as covered.
  ghost predicate FlushInv(s: Sessions, todo: set<UserId>) {
    && Inverse(s)
    && s.conns.Keys <= s.game.online.Keys
    && s.game.online.Keys <= s.conns.Keys + s.pending.Keys + todo
    && QueueFits(s) && GameInv(s.game)
  }

  ghost function Members(order: seq<UserId>): set<UserId> {
    set u | u in order
  }

  lemma {:induction false} FlushKeepsInv(s: Sessions, order: seq<UserId>)
    requires FlushInv(s, Members(order))
    ensures SessionInv(FlushUsers(s, order))
    ensures FlushUsers(s, order).conns == s.conns
    ensures forall u :: u in order ==> u in s.conns || u !in FlushUsers(s, order).game.online
    ensures FlushUsers(s, order).game.online.Keys <= s.game.online.Keys
    ensures FlushUsers(s, order).pending == s.pending
    decreases |order|
  {
    if order == [] {
      assert Members(order) == {};
    } else {
      var u, rest := order[0], order[1..];
      assert Members(order) == Members(rest) + {u};
      if u in s.conns {
        FlushKeepsInv(s, rest);
      } else {
        DisconnectIs(s, u);
        var s1 := ExecuteDisconnect(s, u);
        assert s.conns - {u} == s.conns;
        SameMapsSameInverse(s, s1);
        FlushKeepsInv(s1, rest);
      }
      forall v | v in order
        ensures v in s.conns || v !in FlushUsers(s, order).game.online
      {
        assert v == u || v in rest;
      }
    }
  }

  lemma FlushStepKeepsInv(s: Sessions, now: Time, order: seq<UserId>)
    requires SessionInv(s) && Lists(order, Expired(s, now))
    ensures SessionInv(Flush(s, now, order))
    ensures Flush(s, now, order).conns == s.conns
    ensures Flush(s, now, order).pending == s.pending - Expired(s, now)
    ensures forall u :: u in s.pending && s.pending[u] <= now ==> u in s.conns || u !in Flush(s, now, order).game.online
  {
    var s1 := s.(pending := s.pending - Expired(s, now));
    assert Members(order) == Expired(s, now);
    SameMapsSameInverse(s, s1);
    assert s1.pending.Keys + Members(order) == s.pending.Keys;
    FlushKeepsInv(s1, order);
  }

  lemma PlayKeepsInv(s: Sessions, e: GameEvent)
    requires SessionInv(s) && Plain(e) && Allowed(s.game, e)
    ensures BoardsOk(s.game) && SessionInv(WithGame(s, GameStep(s.game, e)))
  {
    GameStepKeepsInv(s.game, e);
    PlainKeepsOnline(s.game, e);
    SameMapsSameInverse(s, WithGame(s, GameStep(s.game, e)));
  }

  lemma SessionStepKeepsInv(s: Sessions, e: SessionEvent)
    requires SessionInv(s) && MayStep(s, e)
    ensures BoardsOk(s.game) && SessionInv(SessionStep(s, e))
  {
    InvGivesBoards(s.game);
    match e {
      case SClose(h, now) => CloseKeepsInv(s, h, now);
      case SAuth(u, h, hall) => AuthKeepsInv(s, u, h, hall);
      case SMatchStart(u, h, score, at) => MatchStartKeepsInv(s, u, h, score, at);
      case SMatchCancel(h) => MatchCancelKeepsInv(s, h);
      case SReturn(h, token) => ReturnFromKeepsInv(s, h, token);
      case SFlush(now, order) => FlushStepKeepsInv(s, now, order);
      case SPlay(e) => PlayKeepsInv(s, e);
      case SLoop(now0, now1) =>
        LoopKeepsOnline(s.queue, now0, now1);
        QueueStepKeepsInv(s, LoopBody(s.queue, now0, now1));
      case SStatus(online) =>
        GameStepKeepsInv(s.game, EOnline(online));
        SameMapsSameInverse(s, SessionStep(s, e));
    }
  }

  lemma ReturnFromKeepsInv(s: Sessions, h: Handle, token: Option<UserId>)
    requires SessionInv(s)
    ensures BoardsOk(s.game) && SessionInv(ReturnFrom(s, h, token).0)
  {
    InvGivesBoards(s.game);
    if h in s.users {
      assert HandleOk(s, h);
      ReturnKeepsInv(s, s.users[h]);
    }
  }
}
