/** The room registry as the server holds it: two dictionaries changed in place. */
module RoomService {
  import opened Prelude
  import opened Rooms

  class RoomRegistry {
    var rooms: map<RoomId, Room>
    var accountToRoom: map<AccountId, RoomId>

    function State(): Registry
      reads this
    {
      Registry(rooms, accountToRoom)
    }

    constructor ()
      ensures State() == EMPTY
    {
      rooms := map[];
      accountToRoom := map[];
    }

    method Ensure(room: RoomId, host: AccountId, maxPlayers: int)
      modifies this
      ensures Step(old(State()), Ensuring(room, host, maxPlayers), State())
      ensures room in rooms
    {
      if room !in rooms {
        rooms := rooms[room := Room(host, maxPlayers, map[], 0)];
      }
    }

    method JoinRoom(room: RoomId, account: AccountId, sid: Sid) returns (r: Result<Room, RoomError>)
      modifies this
      ensures Step(old(State()), Joining(room, account, sid), State())
      ensures r.Ok? <==> Join(old(State()), room, account, sid).Ok?
      ensures r.Ok? ==> room in rooms && r.value == rooms[room]
      ensures r.Err? ==> Join(old(State()), room, account, sid) == Err(r.error) && State() == old(State())
    {
      if room !in rooms {
        return Err(NoRoom);
      }
      if account in accountToRoom && accountToRoom[account] != room {
        return Err(InOtherRoom);
      }
      var joined := rooms[room];
      if account in joined.members {
        joined := joined.(members := joined.members[account :=
          joined.members[account].(sid := sid, connected := true)]);
      } else {
        if |joined.members| >= joined.maxPlayers {
          return Err(Full);
        }
        joined := joined.(members := joined.members[account := Member(sid, false, None, true, joined.nextJoinOrder)]);
        joined := joined.(nextJoinOrder := joined.nextJoinOrder + 1);
        accountToRoom := accountToRoom[account := room];
      }
      rooms := rooms[room := joined];
      r := Ok(joined);
    }

    method RebindSid(account: AccountId, sid: Sid) returns (room: Option<RoomId>)
      modifies this
      ensures Step(old(State()), Rebinding(account, sid), State())
      ensures room == Rebind(old(State()), account, sid).1
    {
      if account !in accountToRoom {
        return None;
      }
      var id := accountToRoom[account];
      if id !in rooms || account !in rooms[id].members {
        accountToRoom := accountToRoom - {account};
        return None;
      }
      var member := rooms[id].members[account];
      rooms := rooms[id := rooms[id].(members := rooms[id].members[account := member.(sid := sid, connected := true)])];
      room := Some(id);
    }

    /** Looks through every member of every room and stops at the first one that holds the socket. */
    method DisconnectSid(sid: Sid) returns (room: Option<RoomId>)
      modifies this
      ensures Disconnects(old(State()), sid, State(), room)
    {
      var unseen := rooms.Keys;
      while exists id :: id in unseen
        invariant unseen <= rooms.Keys && State() == old(State())
        invariant forall r, a :: Holds(State(), sid, r, a) ==> r in unseen
        decreases unseen
      {
        var id :| id in unseen;
        var members := rooms[id].members;
        var left := members.Keys;
        while exists a :: a in left
          invariant left <= members.Keys && State() == old(State())
          invariant forall a :: Holds(State(), sid, id, a) ==> a in left
          decreases left
        {
          var account :| account in left;
          var member := members[account];
          if member.sid == sid && member.connected {
            assert Holds(State(), sid, id, account);
            rooms := rooms[id := rooms[id].(members := members[account := member.(connected := false)])];
            return Some(id);
          }
          left := left - {account};
        }
        unseen := unseen - {id};
      }
      room := None;
    }

    method SetReadiness(room: RoomId, account: AccountId, ready: bool) returns (r: Result<Room, RoomError>)
      modifies this
      ensures Step(old(State()), Readying(room, account, ready), State())
      ensures r.Ok? <==> SetReady(old(State()), room, account, ready).Ok?
      ensures r.Ok? ==> room in rooms && r.value == rooms[room]
    {
      if room !in rooms {
        return Err(NoRoom);
      }
      if account !in rooms[room].members {
        return Err(NotAMember);
      }
      var member := rooms[room].members[account];
      rooms := rooms[room := rooms[room].(members := rooms[room].members[account := member.(ready := ready)])];
      r := Ok(rooms[room]);
    }

    /** The member with the smallest join order, found by going through all of them. */
    method FirstJoined(members: map<AccountId, Member>) returns (first: AccountId)
      requires exists a :: a in members
      ensures Longest(members, first)
    {
      first :| first in members;
      var left := members.Keys - {first};
      while exists a :: a in left
        invariant left <= members.Keys && first in members
        invariant forall b :: b in members.Keys - left ==> members[first].joinOrder <= members[b].joinOrder
        decreases left
      {
        var account :| account in left;
        if members[account].joinOrder < members[first].joinOrder {
          first := account;
        }
        left := left - {account};
      }
    }

    method Leave(room: RoomId, account: AccountId) returns (r: Result<Room, RoomError>)
      modifies this
      ensures Step(old(State()), Leaving(room, account), State())
      ensures r.Ok? <==> room in old(rooms) && account in old(rooms)[room].members
      ensures r.Ok? ==> room in rooms && r.value == rooms[room]
      ensures r.Err? ==> State() == old(State())
    {
      if room !in rooms {
        return Err(NoRoom);
      }
      if account !in rooms[room].members {
        return Err(NotAMember);
      }
      var left := rooms[room].(members := rooms[room].members - {account});
      accountToRoom := accountToRoom - {account};
      ghost var heir := left.host;
      if account == left.host && exists a :: a in left.members {
        var first := FirstJoined(left.members);
        left := left.(host := first);
        heir := first;
      }
      rooms := rooms[room := left];
      assert Succeeds(old(State()), room, account, heir);
      assert State() == Left(old(State()), room, account, heir);
      r := Ok(left);
    }

    /** Drops the room and, one by one, every index entry that points at it. */
    method Close(room: RoomId) returns (members: map<AccountId, Member>)
      modifies this
      ensures Step(old(State()), Closing(room), State())
      ensures members == if room in old(rooms) then old(rooms)[room].members else map[]
    {
      members := if room in rooms then rooms[room].members else map[];
      rooms := rooms - {room};
      var left := accountToRoom.Keys;
      while exists a :: a in left
        invariant left <= accountToRoom.Keys <= old(accountToRoom).Keys && rooms == old(rooms) - {room}
        invariant forall a :: a in accountToRoom ==> accountToRoom[a] == old(accountToRoom)[a]
        invariant forall a :: a in old(accountToRoom) ==>
                    (a in accountToRoom <==> a in left || old(accountToRoom)[a] != room)
        decreases left
      {
        var account :| account in left;
        if accountToRoom[account] == room {
          accountToRoom := accountToRoom - {account};
        }
        left := left - {account};
      }
      ghost var closed := Closed(old(State()), room).index;
      assert forall a :: a in accountToRoom <==> a in closed;
      assert forall a :: a in accountToRoom ==> accountToRoom[a] == closed[a];
      assert accountToRoom == closed;
    }

    method RemoveIfEmpty(room: RoomId)
      modifies this
      ensures Step(old(State()), Tidying(room), State())
    {
      if room in rooms && !exists a :: a in rooms[room].members {
        assert rooms[room].members.Keys == {};
        var members := Close(room);
      }
    }

    method ResetWaitingState(room: RoomId) returns (r: Result<Room, RoomError>)
      modifies this
      ensures Step(old(State()), Resetting(room), State())
      ensures r.Ok? <==> room in old(rooms)
      ensures r.Ok? ==> room in rooms && r.value == rooms[room]
    {
      if room !in rooms {
        return Err(NoRoom);
      }
      var before := rooms[room].members;
      var members := before;
      var left := members.Keys;
      while exists a :: a in left
        invariant left <= members.Keys == before.Keys && State() == old(State())
        invariant forall a :: a in members ==>
                    members[a] == if a in left then before[a] else before[a].(ready := false, seat := None)
        decreases left
      {
        var account :| account in left;
        members := members[account := members[account].(ready := false, seat := None)];
        left := left - {account};
      }
      assert forall a :: a in members <==> a in before.Keys;
      assert forall a :: a in members ==> members[a] == Waiting(before)[a];
      assert members == Waiting(before);
      rooms := rooms[room := rooms[room].(members := members)];
      r := Ok(rooms[room]);
    }
  }
}
