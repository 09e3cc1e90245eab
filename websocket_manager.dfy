/**
 * The server-side push-channel registry (`WebSocketManager`): active
 * connections by user, the rooms each user joined and the users of each
 * room, kept as two mutually inverse maps by join, leave and disconnect;
 * room and global broadcasts; and the routing of Redis channel messages to
 * rooms.
 *
 * Sockets are connection handles; a message handed to a socket is appended
 * to `sent`. Send failures and the awaits between steps are not modelled.
 */
module WebSocketManager {
  import Basics

  type UserId = string
  type Room = string

  /** What the manager sends: its own acknowledgements, or a forwarded payload (as JSON text). */
  datatype Outgoing = ConnectionAck | JoinAck(room: Room) | Forwarded(data: string)

  /** A message handed to the socket `connection` of `user`. */
  datatype Delivery = Delivery(user: UserId, connection: nat, message: Outgoing)

  /**
   * The room map after `user` has left each of `rooms`: the user is removed
   * from each, and a room the user was the last member of disappears.
   */
  function Without(roomUsers: map<Room, set<UserId>>, user: UserId, rooms: set<Room>): (r: map<Room, set<UserId>>)
    ensures forall room :: room in r <==>
              room in roomUsers && !(room in rooms && user in roomUsers[room] && roomUsers[room] - {user} == {})
    ensures forall room :: room in r ==> r[room] == if room in rooms then roomUsers[room] - {user} else roomUsers[room]
  {
    map room | room in roomUsers && !(room in rooms && user in roomUsers[room] && roomUsers[room] - {user} == {}) ::
      if room in rooms then roomUsers[room] - {user} else roomUsers[room]
  }

  /** `exclude_user and user_id == exclude_user`. */
  predicate Excluded(user: UserId, excludeUser: Basics.Option<UserId>) {
    excludeUser.Some? && excludeUser.value != "" && user == excludeUser.value
  }

  /** The rooms of `user`, empty for a user without a set. */
  function RoomsOf(userRooms: map<UserId, set<Room>>, user: UserId): set<Room> {
    if user in userRooms then userRooms[user] else {}
  }

  /** The users of `room`, empty for an unknown room. */
  function MembersOf(roomUsers: map<Room, set<UserId>>, room: Room): set<UserId> {
    if room in roomUsers then roomUsers[room] else {}
  }

  /** The user map after `user` has left `room`; nothing changes when the user was not in it. */
  function DropRoom(userRooms: map<UserId, set<Room>>, user: UserId, room: Room): (r: map<UserId, set<Room>>)
    ensures r.Keys == userRooms.Keys
    ensures forall u :: u in r ==> r[u] == if u == user then userRooms[u] - {room} else userRooms[u]
  {
    if user in userRooms && room in userRooms[user] then userRooms[user := userRooms[user] - {room}] else userRooms
  }

  lemma DropRoomOfSet(userRooms: map<UserId, set<Room>>, user: UserId, room: Room)
    requires user in userRooms
    ensures DropRoom(userRooms, user, room) == userRooms[user := userRooms[user] - {room}]
  {
  }

  /** The two maps are mutually inverse and no room set is empty. */
  ghost predicate Inverse(userRooms: map<UserId, set<Room>>, roomUsers: map<Room, set<UserId>>) {
    (forall u, r :: u in userRooms && r in userRooms[u] ==> r in roomUsers && u in roomUsers[r]) &&
    (forall u, r :: r in roomUsers && u in roomUsers[r] ==> u in userRooms && r in userRooms[u]) &&
    (forall r :: r in roomUsers ==> roomUsers[r] != {})
  }

  lemma JoinKeepsInverse(userRooms: map<UserId, set<Room>>, roomUsers: map<Room, set<UserId>>, user: UserId, room: Room)
    requires Inverse(userRooms, roomUsers)
    ensures Inverse(userRooms[user := RoomsOf(userRooms, user) + {room}], roomUsers[room := MembersOf(roomUsers, room) + {user}])
  {
  }

  lemma LeaveKeepsInverse(userRooms: map<UserId, set<Room>>, roomUsers: map<Room, set<UserId>>, user: UserId, room: Room)
    requires Inverse(userRooms, roomUsers)
    ensures Inverse(DropRoom(userRooms, user, room), Without(roomUsers, user, {room}))
  {
    var ur, ru := DropRoom(userRooms, user, room), Without(roomUsers, user, {room});
    forall u, r | u in ur && r in ur[u]
      ensures r in ru && u in ru[r]
    {
      assert r in userRooms[u] && u in roomUsers[r];
      if r == room {
        assert u != user;
        assert u in roomUsers[r] - {user};
      }
    }
    forall u, r | r in ru && u in ru[r]
      ensures u in ur && r in ur[u]
    {
      assert u in roomUsers[r];
    }
    forall r | r in ru
      ensures ru[r] != {}
    {
      assert roomUsers[r] != {};
      if r != room {
        assert ru[r] == roomUsers[r];
      }
    }
  }

  /** Leaving a single room, step by step. */
  lemma WithoutOne(roomUsers: map<Room, set<UserId>>, user: UserId, room: Room)
    ensures Without(roomUsers, user, {room}) ==
            if room in roomUsers && user in roomUsers[room] then
              (if roomUsers[room] - {user} == {} then roomUsers - {room} else roomUsers[room := roomUsers[room] - {user}])
            else roomUsers
  {
    var w := Without(roomUsers, user, {room});
    if !(room in roomUsers && user in roomUsers[room]) {
      forall r | r in w
        ensures w[r] == roomUsers[r]
      {
        if r == room {
          assert roomUsers[r] - {user} == roomUsers[r];
        }
      }
    }
  }

  /** Leaving one more room is leaving the union. */
  lemma WithoutStep(roomUsers: map<Room, set<UserId>>, user: UserId, done: set<Room>, room: Room)
    requires room !in done
    ensures Without(Without(roomUsers, user, done), user, {room}) == Without(roomUsers, user, done + {room})
  {
    var lhs, rhs := Without(Without(roomUsers, user, done), user, {room}), Without(roomUsers, user, done + {room});
    assert lhs.Keys == rhs.Keys;
    forall r | r in lhs
      ensures lhs[r] == rhs[r]
    {
      if r in done {
        assert user !in roomUsers[r] - {user};
      }
    }
  }

  /** A user with an empty set is in no room, and the empty set can be dropped or reinstated. */
  lemma EmptyUserIsInNoRoom(userRooms: map<UserId, set<Room>>, roomUsers: map<Room, set<UserId>>, user: UserId)
    requires Inverse(userRooms, roomUsers) && RoomsOf(userRooms, user) == {}
    ensures forall r :: r in roomUsers ==> user !in roomUsers[r]
    ensures Inverse(userRooms - {user}, roomUsers)
    ensures Inverse(userRooms[user := {}], roomUsers)
  {
  }

  /** The users of `users` a room broadcast reaches: not excluded, and connected. */
  function Reachable(users: set<UserId>, excludeUser: Basics.Option<UserId>, conns: map<UserId, nat>): set<UserId> {
    set u | u in users && !Excluded(u, excludeUser) && u in conns
  }

  lemma ReachableStep(users: set<UserId>, user: UserId, excludeUser: Basics.Option<UserId>, conns: map<UserId, nat>)
    ensures Reachable(users + {user}, excludeUser, conns) ==
            Reachable(users, excludeUser, conns) + (if !Excluded(user, excludeUser) && user in conns then {user} else {})
  {
  }

  /** `out` holds one delivery of `message` to the connection of each user of `reached`, and nothing else. */
  ghost predicate Covers(out: seq<Delivery>, reached: set<UserId>, conns: map<UserId, nat>, message: Outgoing) {
    && (forall u :: u in reached ==> u in conns)
    && |out| == |reached|
    && (forall d :: d in out <==> d.user in reached && d.connection == conns[d.user] && d.message == message)
  }

  /** One more user handled by a broadcast loop: a send to a connected user adds that user's delivery. */
  lemma CoversStep(out: seq<Delivery>, reached: set<UserId>, conns: map<UserId, nat>, message: Outgoing, user: UserId,
                   send: bool)
    requires Covers(out, reached, conns, message) && user !in reached
    ensures var added := send && user in conns;
      Covers(out + (if added then [Delivery(user, conns[user], message)] else []),
             reached + (if added then {user} else {}), conns, message)
  {
  }

  class WebSocketManager {
    var activeConnections: map<UserId, nat>
    var userRooms: map<UserId, set<Room>>
    var roomUsers: map<Room, set<UserId>>
    var sent: seq<Delivery>

    /** A user is in a room's set exactly when the room is in the user's set, and no room set is empty. */
    ghost predicate Valid()
      reads this`userRooms, this`roomUsers
    {
      Inverse(userRooms, roomUsers)
    }

    constructor ()
      ensures Valid()
      ensures activeConnections == map[] && userRooms == map[] && roomUsers == map[] && sent == []
    {
      activeConnections := map[];
      userRooms := map[];
      roomUsers := map[];
      sent := [];
    }

    /** `send_to_user`: only a user with an active connection receives the message. */
    method SendToUser(user: UserId, message: Outgoing)
      modifies this`sent
      ensures sent == old(sent) + (if user in activeConnections then [Delivery(user, activeConnections[user], message)] else [])
    {
      if user in activeConnections {
        var websocket := activeConnections[user];
        sent := sent + [Delivery(user, websocket, message)];
      }
    }

    /**
     * `connect`: once the socket is accepted it becomes the user's
     * connection, the user's room set is reset to empty (the room map is
     * not touched) and a connection acknowledgement is sent.
     */
    method Connect(user: UserId, websocket: nat, accepted: bool)
      modifies this`activeConnections, this`userRooms, this`sent
      ensures !accepted ==> activeConnections == old(activeConnections) && userRooms == old(userRooms) && sent == old(sent)
      ensures accepted ==>
                activeConnections == old(activeConnections)[user := websocket] &&
                userRooms == old(userRooms)[user := {}] &&
                sent == old(sent) + [Delivery(user, websocket, ConnectionAck)]
      ensures old(Valid()) && RoomsOf(old(userRooms), user) == {} ==> Valid()
    {
      if !accepted {
        return;
      }
      if Valid() && RoomsOf(userRooms, user) == {} {
        EmptyUserIsInNoRoom(userRooms, roomUsers, user);
      }
      activeConnections := activeConnections[user := websocket];
      userRooms := userRooms[user := {}];
      SendToUser(user, ConnectionAck);
    }

    /** `join_room`: both sets are created if missing and the pair added to both; the user is told. */
    method JoinRoom(user: UserId, room: Room)
      modifies this`userRooms, this`roomUsers, this`sent
      ensures userRooms == old(userRooms)[user := RoomsOf(old(userRooms), user) + {room}]
      ensures roomUsers == old(roomUsers)[room := MembersOf(old(roomUsers), room) + {user}]
      ensures sent == old(sent) + (if user in activeConnections then [Delivery(user, activeConnections[user], JoinAck(room))] else [])
      ensures old(Valid()) ==> Valid()
    {
      if Valid() {
        JoinKeepsInverse(userRooms, roomUsers, user, room);
      }
      var rooms, members := RoomsOf(userRooms, user), MembersOf(roomUsers, room);
      userRooms := userRooms[user := rooms + {room}];
      roomUsers := roomUsers[room := members + {user}];
      SendToUser(user, JoinAck(room));
    }

    /** `leave_room`: the pair leaves both maps, an emptied room is deleted, an absent pair changes nothing. */
    method LeaveRoom(user: UserId, room: Room)
      modifies this`userRooms, this`roomUsers
      ensures userRooms == DropRoom(old(userRooms), user, room)
      ensures roomUsers == Without(old(roomUsers), user, {room})
      ensures old(Valid()) ==> Valid()
    {
      if Valid() {
        LeaveKeepsInverse(userRooms, roomUsers, user, room);
      }
      WithoutOne(roomUsers, user, room);
      if user in userRooms && room in userRooms[user] {
        userRooms := userRooms[user := userRooms[user] - {room}];
      }
      if room in roomUsers && user in roomUsers[room] {
        roomUsers := roomUsers[room := roomUsers[room] - {user}];
        if roomUsers[room] == {} {
          roomUsers := roomUsers - {room};
        }
      }
    }

    /** The loop of `disconnect`: the user leaves every room of a copy of the user's set. */
    method LeaveAllRooms(user: UserId)
      requires user in userRooms
      modifies this`userRooms, this`roomUsers
      ensures userRooms == old(userRooms)[user := {}]
      ensures roomUsers == Without(old(roomUsers), user, old(userRooms)[user])
      ensures old(Valid()) ==> Valid()
    {
      var rooms := userRooms[user];
      var remaining := rooms;
      while remaining != {}
        invariant remaining <= rooms
        invariant userRooms == old(userRooms)[user := remaining]
        invariant roomUsers == Without(old(roomUsers), user, rooms - remaining)
        invariant old(Valid()) ==> Valid()
        decreases |remaining|
      {
        var room :| room in remaining;
        DropRoomOfSet(userRooms, user, room);
        LeaveRoom(user, room);
        WithoutStep(old(roomUsers), user, rooms - remaining, room);
        assert rooms - remaining + {room} == rooms - (remaining - {room});
        assert old(userRooms)[user := remaining][user := remaining - {room}] == old(userRooms)[user := remaining - {room}];
        remaining := remaining - {room};
      }
      assert rooms - remaining == rooms;
    }

    /**
     * `disconnect`: the user leaves every room of the user's set, then
     * loses both the set and the connection. With the maps inverse, the
     * user is afterwards in no room.
     */
    method Disconnect(user: UserId)
      modifies this`userRooms, this`roomUsers, this`activeConnections
      ensures userRooms == old(userRooms) - {user}
      ensures roomUsers == Without(old(roomUsers), user, RoomsOf(old(userRooms), user))
      ensures activeConnections == old(activeConnections) - {user}
      ensures old(Valid()) ==> Valid() && forall r :: r in roomUsers ==> user !in roomUsers[r]
    {
      if user in userRooms {
        LeaveAllRooms(user);
        if Valid() {
          EmptyUserIsInNoRoom(userRooms, roomUsers, user);
        }
        assert userRooms - {user} == old(userRooms) - {user};
        userRooms := userRooms - {user};
      } else {
        assert Without(old(roomUsers), user, {}) == old(roomUsers);
        assert userRooms == old(userRooms) - {user};
        if Valid() {
          EmptyUserIsInNoRoom(userRooms, roomUsers, user);
        }
      }
      if user in activeConnections {
        activeConnections := activeConnections - {user};
      } else {
        assert activeConnections == old(activeConnections) - {user};
      }
    }

    /** `broadcast_to_room`: every member of a known room except the excluded user is sent the message once. */
    method BroadcastToRoom(room: Room, message: Outgoing, excludeUser: Basics.Option<UserId>)
      modifies this`sent
      ensures room !in roomUsers ==> sent == old(sent)
      ensures |sent| >= |old(sent)|
      ensures room in roomUsers ==> forall d :: d in sent[|old(sent)|..] <==>
                d.user in roomUsers[room] && !Excluded(d.user, excludeUser) && d.user in activeConnections &&
                d.connection == activeConnections[d.user] && d.message == message
      ensures room in roomUsers ==>
                |sent| - |old(sent)| == |Reachable(roomUsers[room], excludeUser, activeConnections)|
    {
      if room !in roomUsers {
        return;
      }
      var members := roomUsers[room];
      var remaining := members;
      ghost var reached: set<UserId> := {};
      ghost var out: seq<Delivery> := [];
      while remaining != {}
        invariant remaining <= members && reached == Reachable(members - remaining, excludeUser, activeConnections)
        invariant sent == old(sent) + out && Covers(out, reached, activeConnections, message)
        decreases |remaining|
      {
        var user :| user in remaining;
        ReachableStep(members - remaining, user, excludeUser, activeConnections);
        assert members - (remaining - {user}) == (members - remaining) + {user};
        out, reached := SendMember(user, message, excludeUser, old(sent), out, reached);
        remaining := remaining - {user};
      }
      assert members - remaining == roomUsers[room];
      assert sent[|old(sent)|..] == out;
    }

    /** One turn of a broadcast loop: a user that is not excluded is sent the message. */
    method SendMember(user: UserId, message: Outgoing, excludeUser: Basics.Option<UserId>, ghost start: seq<Delivery>,
                      ghost out: seq<Delivery>, ghost reached: set<UserId>)
      returns (ghost outAfter: seq<Delivery>, ghost reachedAfter: set<UserId>)
      requires sent == start + out && Covers(out, reached, activeConnections, message) && user !in reached
      modifies this`sent
      ensures sent == start + outAfter && Covers(outAfter, reachedAfter, activeConnections, message)
      ensures reachedAfter == reached + (if !Excluded(user, excludeUser) && user in activeConnections then {user} else {})
    {
      var send := !Excluded(user, excludeUser);
      ghost var added := send && user in activeConnections;
      ghost var more: seq<Delivery> := if added then [Delivery(user, activeConnections[user], message)] else [];
      if send {
        SendToUser(user, message);
      }
      Basics.AppendAssoc(start, out, more);
      CoversStep(out, reached, activeConnections, message, user, send);
      outAfter, reachedAfter := out + more, reached + (if added then {user} else {});
    }

    /** `broadcast_to_all`: every active connection is sent the message once. */
    method BroadcastToAll(message: Outgoing)
      modifies this`sent
      ensures |sent| - |old(sent)| == |activeConnections|
      ensures |sent| >= |old(sent)|
      ensures forall d :: d in sent[|old(sent)|..] <==>
                d.user in activeConnections && d.connection == activeConnections[d.user] && d.message == message
    {
      var users := activeConnections.Keys;
      var remaining := users;
      ghost var reached: set<UserId> := {};
      ghost var out: seq<Delivery> := [];
      while remaining != {}
        invariant remaining <= users && reached == users - remaining
        invariant sent == old(sent) + out && Covers(out, reached, activeConnections, message)
        decreases |remaining|
      {
        var user :| user in remaining;
        assert users - (remaining - {user}) == reached + {user};
        out, reached := SendMember(user, message, Basics.None, old(sent), out, reached);
        remaining := remaining - {user};
      }
      assert reached == users;
      assert sent[|old(sent)|..] == out;
    }

    /** `get_room_users_count`: 0 for an unknown room. */
    function RoomUsersCount(room: Room): (n: nat)
      reads this`roomUsers
      ensures room !in roomUsers ==> n == 0
      ensures room in roomUsers ==> n == |roomUsers[room]|
    {
      if room in roomUsers then |roomUsers[room]| else 0
    }

    /** `get_active_connections_count`. */
    function ActiveConnectionsCount(): nat
      reads this`activeConnections
    {
      |activeConnections|
    }

    /** `get_user_rooms`, as a set: empty for an unknown user. */
    function UserRooms(user: UserId): set<Room>
      reads this`userRooms
    {
      if user in userRooms then userRooms[user] else {}
    }
  }

  // ---------------------------------------------------------------- Redis channels

  /** Where a Redis channel message is forwarded. */
  datatype Route = ToAll | ToRoom(room: Room) | Dropped

  const ChannelPrefix := "websocket:"
  const SubscribedChannels: seq<string> :=
    ["websocket:dashboard", "websocket:alerts", "websocket:urgent_alerts", "websocket:device_monitoring", "websocket:broadcast"]

  /** The channel-to-room routing of `_subscribe_redis_messages`. */
  function RouteChannel(channel: string): Route {
    if channel == "websocket:broadcast" then ToAll
    else if Basics.StartsWith(channel, ChannelPrefix) then ToRoom(Basics.ReplaceAll(channel, ChannelPrefix, ""))
    else Dropped
  }

  /** 'websocket:<room>' goes to room `<room>` whenever the name does not itself contain the prefix. */
  lemma ChannelNamesItsRoom(room: Room)
    requires room != "broadcast" && !Basics.Contains(room, ChannelPrefix)
    ensures RouteChannel(ChannelPrefix + room) == ToRoom(room)
  {
    var channel := ChannelPrefix + room;
    assert channel[..|ChannelPrefix|] == ChannelPrefix;
    assert channel[|ChannelPrefix|..] == room;
    assert channel != "websocket:broadcast" by {
      assert channel[|ChannelPrefix|..] != "broadcast";
    }
    Basics.ReplaceAllAbsent(room, ChannelPrefix, "");
  }

  /** A channel without the prefix is never forwarded. */
  lemma OtherChannelsDropped(channel: string)
    requires !Basics.StartsWith(channel, ChannelPrefix)
    ensures RouteChannel(channel) == Dropped
  {
  }

  // ---------------------------------------------------------------- reconnecting a user

  /**
   * A second `connect` of a user who joined a room resets the user's room
   * set but leaves the user in the room: the two maps are no longer
   * inverse, and after `disconnect` the user is still listed in the room.
   */
  method ReconnectKeepsStaleMembership() returns (manager: WebSocketManager)
    ensures "room" in manager.roomUsers && "user" in manager.roomUsers["room"]
    ensures "user" !in manager.userRooms && "user" !in manager.activeConnections
  {
    manager := new WebSocketManager();
    manager.Connect("user", 1, true);
    manager.JoinRoom("user", "room");
    manager.Connect("user", 2, true);
    manager.Disconnect("user");
  }

  /** `connect` with the user's earlier rooms left first, which keeps the maps inverse. */
  method ConnectLeavingOldRooms(manager: WebSocketManager, user: UserId, websocket: nat, accepted: bool)
    requires manager.Valid()
    modifies manager`activeConnections, manager`userRooms, manager`roomUsers, manager`sent
    ensures manager.Valid()
    ensures accepted ==> manager.activeConnections == old(manager.activeConnections)[user := websocket]
    ensures accepted ==> manager.UserRooms(user) == {} && forall r :: r in manager.roomUsers ==> user !in manager.roomUsers[r]
    ensures !accepted ==> manager.userRooms == old(manager.userRooms) && manager.roomUsers == old(manager.roomUsers)
  {
    if !accepted {
      return;
    }
    manager.Disconnect(user);
    manager.Connect(user, websocket, accepted);
  }
}
