// The session handler object: its maps are changed step by step, and each of its
// methods does exactly what the function of module Session says.
module SessionHandler {
  import opened Basics
  import opened Rooms
  import opened RoomIndex
  import opened Online
  import opened Game
  import opened Controller
  import opened MatchSpec
  import opened Matchmaker
  import opened Session
  import opened SessionProofs

  // The current connection of each user.
  class ConnectionManager {
    var conns: map<UserId, Handle>

    constructor ()
      ensures conns == map[]
    {
      conns := map[];
    }

    method Add(u: UserId, h: Handle)
      modifies this
      ensures conns == old(conns)[u := h]
    {
      conns := conns[u := h];
    }

    method Remove(u: UserId)
      modifies this
      ensures conns == old(conns) - {u}
    {
      conns := conns - {u};
    }

    method Get(u: UserId) returns (h: Option<Handle>)
      ensures h == if u in conns then Some(conns[u]) else None
    {
      return if u in conns then Some(conns[u]) else None;
    }
  }

  class WebSocketHandler {
    const game: GameController
    const online: OnlineManager
    const connections: ConnectionManager
    const matcher: Matcher
    var users: map<Handle, UserId>
    var pending: map<UserId, Time>

    ghost predicate Valid()
      reads this, game, game.rooms, game.rooms.Repr, game.online, game.sender, game.users, connections, matcher, matcher.incoming
    {
      && game.Valid() && game.online == online && matcher.Valid() && matcher.online == online
      && connections !in game.rooms.Repr && this !in game.rooms.Repr && matcher !in game.rooms.Repr
      && forall q :: q in matcher.incoming ==> q !in game.rooms.Repr
    }

    ghost function State(): (s: Sessions)
      requires Valid()
      reads this, game, game.rooms, game.rooms.Repr, game.online, game.sender, game.users, connections, matcher, matcher.incoming
      ensures BoardsOk(s.game)
    {
      Sessions(users, connections.conns, pending, game.State(), matcher.State())
    }

    constructor (controller: GameController, matchmaker: Matcher)
      requires controller.Valid() && matchmaker.Valid() && matchmaker.online == controller.online
      requires matchmaker !in controller.rooms.Repr && forall q :: q in matchmaker.incoming ==> q !in controller.rooms.Repr
      ensures Valid() && game == controller && matcher == matchmaker && fresh(connections)
      ensures State() == Sessions(map[], map[], map[], controller.State(), matchmaker.State())
    {
      game := controller;
      online := controller.online;
      matcher := matchmaker;
      connections := new ConnectionManager();
      users := map[];
      pending := map[];
    }

    // ----- connections -----

    // Erases every handle of the user while walking over the map.
    method ForgetHandles(u: UserId)
      modifies this`users
      ensures users == map x | x in old(users) && old(users)[x] != u :: old(users)[x]
    {
      var todo := users.Keys;
      while todo != {}
        invariant todo <= users.Keys <= old(users).Keys
        invariant forall x :: x in users ==> users[x] == old(users)[x]
        invariant forall x :: x in old(users) && x !in todo ==> (x in users <==> old(users)[x] != u)
        decreases todo
      {
        var x :| x in todo;
        todo := todo - {x};
        if users[x] == u {
          users := users - {x};
        }
      }
    }

    method SetUserConnectionOf(u: UserId, h: Handle)
      requires Valid()
      modifies this`users, connections, online
      ensures Valid() && State() == SetUserConnection(old(State()), u, h)
    {
      ForgetHandles(u);
      connections.Add(u, h);
      BringOnline(u);
      users := users[h := u];
    }

    method BringOnline(u: UserId)
      requires Valid()
      modifies online
      ensures Valid()
      ensures
        var g := old(State().game);
        State() == WithGame(old(State()), if u in g.online then g else g.(online := g.online[u := HallIdle]))
    {
      var on := online.IsOnline(u);
      if !on {
        online.UserOnline(u);
      }
    }

    method UserFromHandle(h: Handle) returns (u: UserId)
      requires Valid()
      ensures u == UserOf(State(), h)
    {
      return if h in users then users[h] else 0;
    }

    // ----- the grace queue -----

    method SchedulePendingDisconnect(u: UserId, now: Time)
      requires Valid()
      modifies this`pending
      ensures Valid() && State() == old(State()).(pending := old(pending)[u := now + GRACE])
    {
      pending := pending[u := now + GRACE];
    }

    method CancelPendingDisconnect(u: UserId) returns (found: bool)
      requires Valid()
      modifies this`pending
      ensures Valid() && State() == old(State()).(pending := old(pending) - {u})
      ensures found <==> u in old(pending)
    {
      if u !in pending {
        assert pending - {u} == pending;
        return false;
      }
      pending := pending - {u};
      return true;
    }

    method TellGame(u: UserId)
      requires Valid()
      modifies game, game.rooms`view, game.rooms.Repr, game.sender
      ensures Valid() && game.rooms.Repr == old(game.rooms.Repr)
      ensures State() == WithGame(old(State()), Lose(old(State().game), u))
    {
      LoseKeepsOnline(game.State(), u);
      game.HandleDisconnect(u);
    }

    method CommitPendingDisconnect(u: UserId)
      requires Valid()
      modifies this`pending, game, game.rooms`view, game.rooms.Repr, game.sender
      ensures Valid() && game.rooms.Repr == old(game.rooms.Repr)
      ensures State() == CommitPending(old(State()), u)
    {
      if u !in pending {
        return;
      }
      var found := CancelPendingDisconnect(u);
      TellGame(u);
    }

    method Leave(u: UserId)
      requires Valid()
      modifies connections, online, matcher
      ensures Valid()
      ensures
        var s := old(State());
        State() == WithQueue(s.(conns := s.conns - {u}), Disconnect(s.queue, u))
    {
      connections.Remove(u);
      UserLeaves(matcher, u);
    }

    method CleanUp(u: UserId)
      requires Valid()
      modifies game.rooms
      ensures Valid() && game.rooms.Repr == old(game.rooms.Repr)
      ensures State() == WithGame(old(State()), Cleanup(old(State().game), u))
    {
      game.CleanupFinishedRoom(u);
    }

    method ExecuteUserDisconnect(u: UserId)
      requires Valid()
      modifies game, game.rooms, game.rooms.Repr, game.sender, connections, online, matcher
      ensures Valid() && game.rooms.Repr == old(game.rooms.Repr)
      ensures State() == ExecuteDisconnect(old(State()), u)
    {
      TellGame(u);
      Leave(u);
      CleanUp(u);
    }

    // ----- the handlers -----

    method ActiveRoom(u: UserId) returns (active: bool)
      requires Valid()
      ensures active == HasActiveRoom(State().game, u)
    {
      var room := game.RoomByUser(u);
      if room == null {
        return false;
      }
      game.RoomView(room, room.id);
      return room.status == Playing;
    }

    // The last connection of u is gone: grace in a live room, else the end.
    method LoseConnection(u: UserId, now: Time)
      requires Valid()
      modifies this`pending, game, game.rooms, game.rooms.Repr, game.sender, connections, online, matcher
      ensures Valid() && game.rooms.Repr == old(game.rooms.Repr)
      ensures
        var s := old(State());
        var s2 := s.(conns := s.conns - {u});
        State() == if HasActiveRoom(s.game, u) then s2.(pending := s2.pending[u := now + GRACE]) else ExecuteDisconnect(s2, u)
    {
      connections.Remove(u);
      var active := ActiveRoom(u);
      if active {
        SchedulePendingDisconnect(u, now);
      } else {
        ExecuteUserDisconnect(u);
      }
    }

    method HandleClose(h: Handle, now: Time)
      requires Valid()
      modifies this, game, game.rooms, game.rooms.Repr, game.sender, connections, online, matcher
      ensures Valid() && game.rooms.Repr == old(game.rooms.Repr)
      ensures State() == OnClose(old(State()), h, now)
    {
      if h !in users {
        return;
      }
      var u := users[h];
      users := users - {h};
      if u == 0 {
        return;
      }
      var current := connections.Get(u);
      if current.Some? && current.value != h {
        return;
      }
      LoseConnection(u, now);
    }

    // What an authenticated user is told about its room.
    method Offer(u: UserId, hall: bool) returns (replies: seq<Reply>)
      requires Valid()
      modifies this`pending, game, game.rooms`view, game.rooms.Repr, game.sender
      ensures Valid() && game.rooms.Repr == old(game.rooms.Repr)
      ensures (State(), replies) == OfferRoom(old(State()), u, hall)
    {
      var room := game.RoomByUser(u);
      if room == null {
        return [];
      }
      game.RoomView(room, room.id);
      if room.status == Playing {
        CommitForHall(u, hall);
        replies := Invitation(u);
      } else if room.status == Finished {
        replies := [OldResult];
      } else {
        replies := [];
      }
    }

    // Back in the hall: the postponed disconnect is made good.
    method CommitForHall(u: UserId, hall: bool)
      requires Valid()
      modifies this`pending, game, game.rooms`view, game.rooms.Repr, game.sender
      ensures Valid() && game.rooms.Repr == old(game.rooms.Repr)
      ensures State() == if u in old(pending) && hall then CommitPending(old(State()), u) else old(State())
    {
      if u in pending && hall {
        CommitPendingDisconnect(u);
      }
    }

    method Invitation(u: UserId) returns (replies: seq<Reply>)
      requires Valid()
      ensures replies == Invite(State(), u)
    {
      var room := game.RoomByUser(u);
      if room == null {
        return [];
      }
      game.RoomView(room, room.id);
      return if room.lost == Some(u) then [ReconnectAvailable(room.id)] else [];
    }

    // u is the user that the token of the message verifies, or 0.
    method HandleAuth(u: UserId, h: Handle, hall: bool) returns (replies: seq<Reply>)
      requires Valid()
      modifies this, game, game.rooms`view, game.rooms.Repr, game.sender, connections, online
      ensures Valid() && game.rooms.Repr == old(game.rooms.Repr)
      ensures (State(), replies) == Auth(old(State()), u, h, hall)
    {
      if u == 0 {
        return [InvalidToken];
      }
      AuthInParts(State(), u, h, hall);
      SetUserConnectionOf(u, h);
      replies := Offer(u, hall);
      replies := [AuthSuccess(u)] + replies;
    }

    // ----- the queue -----

    method HandleMatchStart(u: UserId, h: Handle, score: int, now: Millis) returns (replies: seq<Reply>)
      requires Valid()
      modifies this`users, connections, online, matcher, matcher.incoming
      ensures Valid() && (State(), replies) == MatchStart(old(State()), u, h, score, now)
    {
      var known := UserFromHandle(h);
      if known > 0 {
        replies := EnqueueIdle(known, score, now);
        return;
      }
      if u == 0 {
        return [InvalidToken];
      }
      SetUserConnectionOf(u, h);
      replies := EnqueueIdle(u, score, now);
    }

    method EnqueueIdle(u: UserId, score: int, now: Millis) returns (replies: seq<Reply>)
      requires Valid()
      modifies online, matcher, matcher.incoming
      ensures Valid() && (State(), replies) == StartWaiting(old(State()), u, score, now)
    {
      var status := online.GetStatus(u);
      if status != HallIdle {
        return [NotInHall];
      }
      var ok := matcher.Enqueue(u, score, now, false);
      return [if ok then MatchWaiting else EnqueueFailed];
    }

    method HandleMatchCancel(h: Handle) returns (replies: seq<Reply>)
      requires Valid()
      modifies online, matcher
      ensures Valid() && (State(), replies) == MatchCancel(old(State()), h)
    {
      var u := UserFromHandle(h);
      if u == 0 {
        return [Unauthenticated];
      }
      var ok := matcher.Cancel(u);
      return [if ok then MatchCancelled else CancelFailed];
    }

    // ----- coming back -----

    method HandleReturn(h: Handle, token: Option<UserId>) returns (replies: seq<Reply>)
      requires Valid()
      modifies this`pending, game, game.rooms`view, game.rooms.Repr, game.sender
      ensures Valid() && game.rooms.Repr == old(game.rooms.Repr)
      ensures (State(), replies) == ReturnFrom(old(State()), h, token)
    {
      var u := UserFromHandle(h);
      if u == 0 {
        return [Unauthenticated];
      }
      if token.Some? && (token.value == 0 || token.value != u) {
        return [InvalidToken];
      }
      var found := CancelPendingDisconnect(u);
      ReconnectKeepsOnline(game.State(), u);
      game.HandleReconnect(u);
      return [];
    }

    // ----- the end of the grace -----

    // The users whose deadline has passed, each listed once.
    method CollectExpired(now: Time) returns (expired: seq<UserId>)
      requires Valid()
      ensures Lists(expired, Expired(State(), now))
    {
      expired := [];
      var todo := pending.Keys;
      while todo != {}
        invariant todo <= pending.Keys
        invariant forall u :: u in expired ==> u in pending && u !in todo
        invariant forall u :: u in pending && u !in todo ==> (u in expired <==> pending[u] <= now)
        invariant forall i, j :: 0 <= i < j < |expired| ==> expired[i] != expired[j]
        decreases todo
      {
        var u :| u in todo;
        todo := todo - {u};
        if pending[u] <= now {
          expired := expired + [u];
        }
      }
    }

    method RemovePending(expired: seq<UserId>)
      requires Valid()
      modifies this`pending
      ensures Valid()
      ensures State() == old(State()).(pending := old(pending) - (set u | u in expired))
    {
      for i := 0 to |expired|
        invariant Valid()
        invariant pending == old(pending) - (set u | u in expired[..i])
      {
        assert expired[..i + 1] == expired[..i] + [expired[i]];
        pending := pending - {expired[i]};
      }
      assert expired[..|expired|] == expired;
    }

    method FlushPendingDisconnects(now: Time) returns (order: seq<UserId>)
      requires Valid()
      modifies this, game, game.rooms, game.rooms.Repr, game.sender, connections, online, matcher
      ensures Valid() && game.rooms.Repr == old(game.rooms.Repr)
      ensures Lists(order, old(Expired(State(), now)))
      ensures State() == Flush(old(State()), now, order)
    {
      ghost var was := State();
      order := CollectExpired(now);
      RemovePending(order);
      assert (set u | u in order) == Expired(was, now);
      assert State() == was.(pending := was.pending - Expired(was, now));
      DisconnectAll(order);
    }

    method DisconnectAll(order: seq<UserId>)
      requires Valid()
      modifies game, game.rooms, game.rooms.Repr, game.sender, connections, online, matcher
      ensures Valid() && game.rooms.Repr == old(game.rooms.Repr)
      ensures State() == FlushUsers(old(State()), order)
    {
      for i := 0 to |order|
        invariant Valid() && game.rooms.Repr == old(game.rooms.Repr)
        invariant FlushUsers(State(), order[i..]) == FlushUsers(old(State()), order)
      {
        DisconnectUnlessBack(order[i]);
        assert order[i..][1..] == order[i + 1..];
      }
    }

    method DisconnectUnlessBack(u: UserId)
      requires Valid()
      modifies game, game.rooms, game.rooms.Repr, game.sender, connections, online, matcher
      ensures Valid() && game.rooms.Repr == old(game.rooms.Repr)
      ensures State() == if u in old(State()).conns then old(State()) else ExecuteDisconnect(old(State()), u)
    {
      var connection := connections.Get(u);
      if connection.Some? {
        return;
      }
      ExecuteUserDisconnect(u);
    }
  }

  // ----- the auth message, cut in two -----

  function Invite(s: Sessions, u: UserId): seq<Reply> {
    var at := RoomOf(s.game.table, u);
    if at.Some? && s.game.table.rooms[at.value].lost == Some(u) then [ReconnectAvailable(at.value)] else []
  }

  function OfferRoom(s: Sessions, u: UserId, hall: bool): (Sessions, seq<Reply>) {
    var at := RoomOf(s.game.table, u);
    if at.None? then (s, [])
    else if s.game.table.rooms[at.value].status == Playing then
      var s2 := if u in s.pending && hall then CommitPending(s, u) else s;
      (s2, Invite(s2, u))
    else if s.game.table.rooms[at.value].status == Finished then (s, [OldResult])
    else (s, [])
  }

  lemma AuthInParts(s: Sessions, u: UserId, h: Handle, hall: bool)
    requires u > 0
    ensures
      var (s2, replies) := OfferRoom(SetUserConnection(s, u, h), u, hall);
      Auth(s, u, h, hall) == (s2, [AuthSuccess(u)] + replies)
  {
    var (s2, replies) := OfferRoom(SetUserConnection(s, u, h), u, hall);
    assert replies == [] ==> [AuthSuccess(u)] + replies == [AuthSuccess(u)];
    assert |replies| == 1 ==> [AuthSuccess(u)] + replies == [AuthSuccess(u), replies[0]];
  }
}
