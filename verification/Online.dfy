// Who is online, and in which of the three online states.
module Online {
  import opened Basics

  datatype OnlineStatus = Offline | HallIdle | Matching | InRoom

  type Users = map<UserId, OnlineStatus>

  function StatusOf(users: Users, u: UserId): OnlineStatus {
    if u in users then users[u] else Offline
  }

  // A status can be set only for somebody who is online.
  function WithStatus(users: Users, u: UserId, s: OnlineStatus): (users': Users)
    ensures users'.Keys == users.Keys
    ensures forall v :: v in users && v != u ==> users'[v] == users[v]
    ensures u in users ==> users'[u] == s
  {
    if u in users then users[u := s] else users
  }

  class OnlineManager {
    var users: Users

    constructor ()
      ensures users == map[]
    {
      users := map[];
    }

    method UserOnline(u: UserId)
      modifies this
      ensures users == old(users)[u := HallIdle]
    {
      users := users[u := HallIdle];
    }

    method UserOffline(u: UserId)
      modifies this
      ensures users == old(users) - {u}
    {
      users := users - {u};
    }

    method IsOnline(u: UserId) returns (b: bool)
      ensures b <==> u in users
    {
      return u in users;
    }

    method SetStatus(u: UserId, s: OnlineStatus) returns (ok: bool)
      modifies this
      ensures users == WithStatus(old(users), u, s)
      ensures ok <==> u in old(users)
    {
      if u !in users {
        return false;
      }
      users := users[u := s];
      return true;
    }

    method GetStatus(u: UserId) returns (s: OnlineStatus)
      ensures s == StatusOf(users, u)
    {
      if u !in users {
        return Offline;
      }
      return users[u];
    }
  }
}
