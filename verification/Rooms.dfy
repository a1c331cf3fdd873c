/** Room membership: every room's members and, by account, the room each one is in. */
module Rooms {
  import opened Prelude

  type AccountId = int
  type RoomId = nat
  type Sid = nat

  datatype Member = Member(sid: Sid, ready: bool, seat: Option<nat>, connected: bool, joinOrder: nat)

  datatype Room = Room(host: AccountId, maxPlayers: int, members: map<AccountId, Member>, nextJoinOrder: nat)

  datatype Registry = Registry(rooms: map<RoomId, Room>, index: map<AccountId, RoomId>)

  datatype RoomError = NoRoom | InOtherRoom | Full | NotAMember

  // ---------------------------------------------------------------------------------------------
  // Operations
  // ---------------------------------------------------------------------------------------------

  function EnsureRoom(g: Registry, r: RoomId, host: AccountId, maxPlayers: int): Registry {
    if r in g.rooms then g else g.(rooms := g.rooms[r := Room(host, maxPlayers, map[], 0)])
  }

  function WithMember(g: Registry, r: RoomId, a: AccountId, m: Member): Registry
    requires r in g.rooms
  {
    g.(rooms := g.rooms[r := g.rooms[r].(members := g.rooms[r].members[a := m])])
  }

  function Join(g: Registry, r: RoomId, a: AccountId, sid: Sid): Result<Registry, RoomError> {
    if r !in g.rooms then Err(NoRoom)
    else if a in g.index && g.index[a] != r then Err(InOtherRoom)
    else
      var room := g.rooms[r];
      if a in room.members then Ok(WithMember(g, r, a, room.members[a].(sid := sid, connected := true)))
      else if |room.members| >= room.maxPlayers then Err(Full)
      else
        var joined := room.(members := room.members[a := Member(sid, false, None, true, room.nextJoinOrder)],
                            nextJoinOrder := room.nextJoinOrder + 1);
        Ok(Registry(g.rooms[r := joined], g.index[a := r]))
  }

  function Rebind(g: Registry, a: AccountId, sid: Sid): (Registry, Option<RoomId>) {
    if a !in g.index then (g, None)
    else
      var r := g.index[a];
      if r !in g.rooms || a !in g.rooms[r].members then (g.(index := g.index - {a}), None)
      else (WithMember(g, r, a, g.rooms[r].members[a].(sid := sid, connected := true)), Some(r))
  }

  /** The member a disconnecting socket belongs to, still shown as connected. */
  predicate Holds(g: Registry, sid: Sid, r: RoomId, a: AccountId) {
    && r in g.rooms && a in g.rooms[r].members
    && g.rooms[r].members[a].sid == sid && g.rooms[r].members[a].connected
  }

  function MarkedOffline(g: Registry, r: RoomId, a: AccountId): Registry
    requires r in g.rooms && a in g.rooms[r].members
  {
    WithMember(g, r, a, g.rooms[r].members[a].(connected := false))
  }

  /** The search marks one matching member offline, whichever it meets first, or finds none. */
  ghost predicate Disconnects(g: Registry, sid: Sid, h: Registry, found: Option<RoomId>) {
    match found
    case None => h == g && forall r, a :: !Holds(g, sid, r, a)
    case Some(r) => exists a :: Holds(g, sid, r, a) && h == MarkedOffline(g, r, a)
  }

  function SetReady(g: Registry, r: RoomId, a: AccountId, ready: bool): Result<Registry, RoomError> {
    if r !in g.rooms then Err(NoRoom)
    else if a !in g.rooms[r].members then Err(NotAMember)
    else Ok(WithMember(g, r, a, g.rooms[r].members[a].(ready := ready)))
  }

  /** The member that has been in the room longest. */
  predicate Longest(members: map<AccountId, Member>, a: AccountId) {
    a in members && forall b :: b in members ==> members[a].joinOrder <= members[b].joinOrder
  }

  /** A departing host hands over to the longest-standing member left, if anybody is left. */
  function Left(g: Registry, r: RoomId, a: AccountId, heir: AccountId): Registry
    requires r in g.rooms
  {
    var room := g.rooms[r];
    var members := room.members - {a};
    var host := if a == room.host && members.Keys != {} then heir else room.host;
    Registry(g.rooms[r := room.(members := members, host := host)], g.index - {a})
  }

  predicate Succeeds(g: Registry, r: RoomId, a: AccountId, heir: AccountId)
    requires r in g.rooms
  {
    var members := g.rooms[r].members - {a};
    a == g.rooms[r].host && members.Keys != {} ==> Longest(members, heir)
  }

  function Closed(g: Registry, r: RoomId): Registry {
    Registry(g.rooms - {r}, map a | a in g.index && g.index[a] != r :: g.index[a])
  }

  function RemovedIfEmpty(g: Registry, r: RoomId): Registry {
    if r in g.rooms && g.rooms[r].members.Keys == {} then Closed(g, r) else g
  }

  function Waiting(members: map<AccountId, Member>): map<AccountId, Member> {
    map a | a in members :: members[a].(ready := false, seat := None)
  }

  function ResetWaiting(g: Registry, r: RoomId): Result<Registry, RoomError> {
    if r !in g.rooms then Err(NoRoom)
    else Ok(g.(rooms := g.rooms[r := g.rooms[r].(members := Waiting(g.rooms[r].members))]))
  }

  // ---------------------------------------------------------------------------------------------
  // Runs
  // ---------------------------------------------------------------------------------------------

  datatype RoomOp =
    | Ensuring(room: RoomId, host: AccountId, maxPlayers: int)
    | Joining(room: RoomId, account: AccountId, sid: Sid)
    | Rebinding(account: AccountId, sid: Sid)
    | Disconnecting(sid: Sid)
    | Readying(room: RoomId, account: AccountId, ready: bool)
    | Leaving(room: RoomId, account: AccountId)
    | Closing(room: RoomId)
    | Tidying(room: RoomId)
    | Resetting(room: RoomId)

  /** An operation that is refused leaves the registry as it was. */
  ghost predicate Step(g: Registry, op: RoomOp, h: Registry) {
    match op
    case Ensuring(r, host, max) => h == EnsureRoom(g, r, host, max)
    case Joining(r, a, sid) => h == if Join(g, r, a, sid).Ok? then Join(g, r, a, sid).value else g
    case Rebinding(a, sid) => h == Rebind(g, a, sid).0
    case Disconnecting(sid) => exists found :: Disconnects(g, sid, h, found)
    case Readying(r, a, ready) => h == if SetReady(g, r, a, ready).Ok? then SetReady(g, r, a, ready).value else g
    case Leaving(r, a) =>
      if r !in g.rooms || a !in g.rooms[r].members then h == g
      else exists heir :: Succeeds(g, r, a, heir) && h == Left(g, r, a, heir)
    case Closing(r) => h == Closed(g, r)
    case Tidying(r) => h == RemovedIfEmpty(g, r)
    case Resetting(r) => h == if ResetWaiting(g, r).Ok? then ResetWaiting(g, r).value else g
  }

  const EMPTY := Registry(map[], map[])

  /** A run is the sequence of states it passes through, one per operation. */
  ghost predicate Run(states: seq<Registry>, ops: seq<RoomOp>) {
    && |states| == |ops| + 1 && states[0] == EMPTY
    && forall i :: 0 <= i < |ops| ==> Step(states[i], ops[i], states[i + 1])
  }

  // ---------------------------------------------------------------------------------------------
  // Invariant
  // ---------------------------------------------------------------------------------------------

  /** An account is indexed to a room exactly when it is a member there; so nobody is in two rooms. */
  ghost predicate Indexed(g: Registry) {
    forall a, r :: (a in g.index && g.index[a] == r) <==> (r in g.rooms && a in g.rooms[r].members)
  }

  predicate GoodRoom(room: Room) {
    && |room.members| <= Max(0, room.maxPlayers)
    && (forall a :: a in room.members ==> room.members[a].joinOrder < room.nextJoinOrder)
    && (forall a, b :: a in room.members && b in room.members && a != b ==>
          room.members[a].joinOrder != room.members[b].joinOrder)
  }

  ghost predicate RegistryInv(g: Registry) {
    && Indexed(g)
    && forall r :: r in g.rooms ==> GoodRoom(g.rooms[r])
  }

  lemma GoodUpdate(room: Room, a: AccountId, m: Member)
    requires GoodRoom(room) && a in room.members && m.joinOrder == room.members[a].joinOrder
    ensures GoodRoom(room.(members := room.members[a := m]))
  {
    assert room.members[a := m].Keys == room.members.Keys;
    assert |room.members[a := m].Keys| == |room.members.Keys|;
  }

  lemma GoodJoin(room: Room, a: AccountId, m: Member)
    requires GoodRoom(room) && a !in room.members && |room.members| < room.maxPlayers && m.joinOrder == room.nextJoinOrder
    ensures GoodRoom(room.(members := room.members[a := m], nextJoinOrder := room.nextJoinOrder + 1))
  {
    assert room.members[a := m].Keys == room.members.Keys + {a};
    assert |room.members[a := m]| == |room.members| + 1;
  }

  lemma GoodLeave(room: Room, a: AccountId, host: AccountId)
    requires GoodRoom(room) && a in room.members
    ensures GoodRoom(room.(members := room.members - {a}, host := host))
  {
    var rest := room.members - {a};
    assert rest.Keys == room.members.Keys - {a};
    assert |rest.Keys| == |room.members.Keys| - 1;
    assert |rest| == |rest.Keys|;
  }

  lemma GoodReset(room: Room)
    requires GoodRoom(room)
    ensures GoodRoom(room.(members := Waiting(room.members)))
  {
    assert Waiting(room.members).Keys == room.members.Keys;
    assert |Waiting(room.members).Keys| == |room.members.Keys|;
  }

  /** Replacing a member's record keeps everything that does not depend on the socket or readiness. */
  lemma WithMemberInv(g: Registry, r: RoomId, a: AccountId, m: Member)
    requires RegistryInv(g) && r in g.rooms && a in g.rooms[r].members
    requires m.joinOrder == g.rooms[r].members[a].joinOrder
    ensures RegistryInv(WithMember(g, r, a, m))
  {
    hide GoodRoom;
    GoodUpdate(g.rooms[r], a, m);
  }

  lemma JoinInv(g: Registry, r: RoomId, a: AccountId, sid: Sid)
    requires RegistryInv(g) && Join(g, r, a, sid).Ok?
    ensures RegistryInv(Join(g, r, a, sid).value)
  {
    hide GoodRoom;
    var room := g.rooms[r];
    if a in room.members {
      WithMemberInv(g, r, a, room.members[a].(sid := sid, connected := true));
    } else {
      GoodJoin(room, a, Member(sid, false, None, true, room.nextJoinOrder));
    }
  }

  lemma LeftInv(g: Registry, r: RoomId, a: AccountId, heir: AccountId)
    requires RegistryInv(g) && r in g.rooms && a in g.rooms[r].members
    ensures RegistryInv(Left(g, r, a, heir))
  {
    hide GoodRoom;
    GoodLeave(g.rooms[r], a, Left(g, r, a, heir).rooms[r].host);
  }

  lemma ResetInv(g: Registry, r: RoomId)
    requires RegistryInv(g) && r in g.rooms
    ensures RegistryInv(ResetWaiting(g, r).value)
  {
    hide GoodRoom;
    GoodReset(g.rooms[r]);
  }

  lemma EnsureInv(g: Registry, r: RoomId, host: AccountId, max: int)
    requires RegistryInv(g)
    ensures RegistryInv(EnsureRoom(g, r, host, max))
  {
    var room := Room(host, max, map[], 0);
    assert GoodRoom(room);
    hide GoodRoom;
    if r !in g.rooms {
      assert forall a :: a !in room.members;
      assert forall a :: a in g.index ==> g.index[a] != r;
    }
  }

  lemma ClosedInv(g: Registry, r: RoomId)
    requires RegistryInv(g)
    ensures RegistryInv(Closed(g, r))
  {
    hide GoodRoom;
  }

  /** Under the invariant a rebind never meets a dangling index, so it loses nothing. */
  lemma RebindInv(g: Registry, a: AccountId, sid: Sid)
    requires RegistryInv(g)
    ensures RegistryInv(Rebind(g, a, sid).0)
    ensures Rebind(g, a, sid).1 == if a in g.index then Some(g.index[a]) else None
    ensures Rebind(g, a, sid).0.index == g.index
  {
    if a in g.index {
      var r := g.index[a];
      WithMemberInv(g, r, a, g.rooms[r].members[a].(sid := sid, connected := true));
    }
  }

  /** Every operation keeps the index in step with the rooms, rooms within capacity and join orders distinct. */
  lemma StepInv(g: Registry, op: RoomOp, h: Registry)
    requires RegistryInv(g) && Step(g, op, h)
    ensures RegistryInv(h)
  {
    match op
    case Ensuring(r, host, max) => EnsureInv(g, r, host, max);
    case Joining(r, a, sid) =>
      if Join(g, r, a, sid).Ok? { JoinInv(g, r, a, sid); }
    case Rebinding(a, sid) => RebindInv(g, a, sid);
    case Disconnecting(sid) =>
      var found :| Disconnects(g, sid, h, found);
      if found.Some? {
        var a :| Holds(g, sid, found.value, a) && h == MarkedOffline(g, found.value, a);
        WithMemberInv(g, found.value, a, g.rooms[found.value].members[a].(connected := false));
      }
    case Readying(r, a, ready) =>
      if SetReady(g, r, a, ready).Ok? { WithMemberInv(g, r, a, g.rooms[r].members[a].(ready := ready)); }
    case Leaving(r, a) =>
      if r in g.rooms && a in g.rooms[r].members {
        var heir :| Succeeds(g, r, a, heir) && h == Left(g, r, a, heir);
        LeftInv(g, r, a, heir);
      }
    case Closing(r) => ClosedInv(g, r);
    case Tidying(r) =>
      ClosedInv(g, r);
    case Resetting(r) =>
      if r in g.rooms { ResetInv(g, r); }
  }

  lemma {:induction false} RunInv(states: seq<Registry>, ops: seq<RoomOp>)
    requires Run(states, ops)
    ensures forall i :: 0 <= i < |states| ==> RegistryInv(states[i])
  {
    hide RegistryInv, Step;
    if ops == [] {
      EmptyInv();
    } else {
      var n := |ops| - 1;
      RunInv(states[..|states| - 1], ops[..n]);
      assert states[n] == states[..|states| - 1][n];
      StepInv(states[n], ops[n], states[n + 1]);
    }
  }

  lemma EmptyInv()
    ensures RegistryInv(EMPTY)
  {
  }

  // ---------------------------------------------------------------------------------------------
  // Hosts
  // ---------------------------------------------------------------------------------------------

  predicate Hosted(g: Registry, r: RoomId) {
    r in g.rooms && g.rooms[r].host in g.rooms[r].members
  }

  predicate Occupied(g: Registry, r: RoomId) {
    r in g.rooms && g.rooms[r].members.Keys != {}
  }

  /**
   * A room whose host is a member stays so for as long as anybody is in it. The host changes only by
   * the host leaving, and then to the member who joined before all others that remain.
   */
  lemma HostContinues(g: Registry, op: RoomOp, h: Registry, r: RoomId)
    requires RegistryInv(g) && Step(g, op, h) && Hosted(g, r) && Occupied(h, r)
    ensures Hosted(h, r)
    ensures h.rooms[r].host != g.rooms[r].host ==>
              op == Leaving(r, g.rooms[r].host) && Longest(h.rooms[r].members, h.rooms[r].host)
  {
    hide GoodRoom;
    match op
    case Disconnecting(sid) =>
      var found :| Disconnects(g, sid, h, found);
      if found.Some? {
        var a :| Holds(g, sid, found.value, a) && h == MarkedOffline(g, found.value, a);
      }
    case Leaving(q, a) =>
      if q in g.rooms && a in g.rooms[q].members {
        var heir :| Succeeds(g, q, a, heir) && h == Left(g, q, a, heir);
      }
    case _ =>
  }

  /** In a run: from the moment the host is a member until the room is empty, the host is a member. */
  lemma {:induction false} HostUntilEmpty(states: seq<Registry>, ops: seq<RoomOp>, r: RoomId, i: nat, j: nat)
    requires Run(states, ops) && i <= j < |states| && Hosted(states[i], r)
    requires forall k :: i <= k <= j ==> Occupied(states[k], r)
    ensures Hosted(states[j], r)
    decreases j
  {
    hide Step, RegistryInv, Hosted, Occupied;
    if i < j {
      HostUntilEmpty(states, ops, r, i, j - 1);
      RunInv(states, ops);
      assert Step(states[j - 1], ops[j - 1], states[j - 1 + 1]);
      HostContinues(states[j - 1], ops[j - 1], states[j], r);
    }
  }

  lemma LongestUnique(room: Room, x: AccountId, y: AccountId)
    requires GoodRoom(room) && Longest(room.members, x) && Longest(room.members, y)
    ensures x == y
  {
  }

  /** With distinct join orders the longest-standing member is unique, so leaving has one outcome. */
  lemma LeavingIsDetermined(g: Registry, r: RoomId, a: AccountId, h: Registry, k: Registry)
    requires RegistryInv(g) && Step(g, Leaving(r, a), h) && Step(g, Leaving(r, a), k)
    ensures h == k
  {
    if r in g.rooms && a in g.rooms[r].members {
      var x :| Succeeds(g, r, a, x) && h == Left(g, r, a, x);
      var y :| Succeeds(g, r, a, y) && k == Left(g, r, a, y);
      GoodLeave(g.rooms[r], a, a);
      hide GoodRoom, Longest;
      if a == g.rooms[r].host && (g.rooms[r].members - {a}).Keys != {} {
        LongestUnique(g.rooms[r].(members := g.rooms[r].members - {a}, host := a), x, y);
      }
    }
  }

  predicate IsReady(g: Registry, r: RoomId, a: AccountId) {
    r in g.rooms && a in g.rooms[r].members && g.rooms[r].members[a].ready
  }

  /** A reset, a withdrawal, or the end of the membership. */
  predicate Unreadies(op: RoomOp, r: RoomId, a: AccountId) {
    op == Resetting(r) || op == Readying(r, a, false) || op == Leaving(r, a) || op == Closing(r)
  }

  lemma NobodyReady(r: RoomId, a: AccountId)
    ensures !IsReady(EMPTY, r, a)
  {
  }
}
