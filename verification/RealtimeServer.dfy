/** Sockets and rooms together: who is shown as online, through reconnects and late disconnects. */
module RealtimeServer {
  import opened Prelude
  import opened Rooms
  import C = Connections

  /** Every socket keeps the account it authenticated as, even after a newer socket took over. */
  datatype Server = Server(sockets: C.Sockets, rooms: Registry, sessions: map<Sid, AccountId>)

  datatype Event =
    | Connected(account: AccountId, sid: Sid)
    | Disconnected(sid: Sid)
    | Joined(sid: Sid, room: RoomId, host: AccountId, maxPlayers: int)
    | Managed(op: RoomOp)

  /** Room operations that come neither from a join nor from a socket. */
  predicate Management(op: RoomOp) {
    op.Readying? || op.Leaving? || op.Closing? || op.Tidying? || op.Resetting?
  }

  /** Socket ids are never reused; a join is made in the name of the account the socket authenticated as. */
  ghost predicate ServerStep(s: Server, e: Event, t: Server) {
    match e
    case Connected(account, sid) =>
      && sid !in s.sessions
      && t == Server(C.Replaced(s.sockets, account, sid), Rebind(s.rooms, account, sid).0,
                     s.sessions[sid := account])
    case Disconnected(sid) =>
      && t.sockets == C.Released(s.sockets, sid) && t.sessions == s.sessions
      && (if C.Lookup(s.sockets.accountOf, sid).None? then t.rooms == s.rooms
          else exists found :: Disconnects(s.rooms, sid, t.rooms, found))
    case Joined(sid, room, host, max) =>
      && sid in s.sessions
      && t == s.(rooms := AfterJoin(s, sid, room, host, max))
    case Managed(op) =>
      Management(op) && t.sockets == s.sockets && t.sessions == s.sessions && Step(s.rooms, op, t.rooms)
  }

  function AfterJoin(s: Server, sid: Sid, room: RoomId, host: AccountId, max: int): Registry
    requires sid in s.sessions
  {
    var ensured := EnsureRoom(s.rooms, room, host, max);
    var joined := Join(ensured, room, s.sessions[sid], sid);
    if joined.Ok? then joined.value else ensured
  }

  predicate IsMember(g: Registry, r: RoomId, a: AccountId) {
    r in g.rooms && a in g.rooms[r].members
  }

  function MemberOf(g: Registry, r: RoomId, a: AccountId): Member
    requires IsMember(g, r, a)
  {
    g.rooms[r].members[a]
  }

  /** A member is shown as connected exactly while the account has a socket, and then under that socket. */
  ghost predicate Shown(s: Server) {
    forall r, a :: IsMember(s.rooms, r, a) ==> ShownAs(s.sockets, a, MemberOf(s.rooms, r, a))
  }

  predicate ShownAs(sockets: C.Sockets, a: AccountId, m: Member) {
    (m.connected <==> a in sockets.sidOf) && (a in sockets.sidOf ==> m.sid == sockets.sidOf[a])
  }

  ghost predicate SocketsOwned(s: Server) {
    forall sid :: sid in s.sockets.accountOf ==> sid in s.sessions && s.sessions[sid] == s.sockets.accountOf[sid]
  }

  ghost predicate MembersOwned(s: Server) {
    forall r, a :: IsMember(s.rooms, r, a) ==>
      MemberOf(s.rooms, r, a).sid in s.sessions && s.sessions[MemberOf(s.rooms, r, a).sid] == a
  }

  ghost predicate Base(s: Server) {
    C.Inverse(s.sockets) && RegistryInv(s.rooms) && SocketsOwned(s) && MembersOwned(s)
  }

  /** The socket a join comes from is still the current one of its account. */
  predicate Current(s: Server, e: Event) {
    e.Joined? ==> e.sid in s.sessions && C.Lookup(s.sockets.sidOf, s.sessions[e.sid]) == Some(e.sid)
  }

  const START := Server(C.Sockets(map[], map[]), EMPTY, map[])

  ghost predicate Run(states: seq<Server>, events: seq<Event>) {
    && |states| == |events| + 1 && states[0] == START
    && forall i :: 0 <= i < |events| ==> ServerStep(states[i], events[i], states[i + 1])
  }

  // ---------------------------------------------------------------------------------------------
  // What always holds
  // ---------------------------------------------------------------------------------------------

  /** How an operation may change members: some member of one account gets a new record, others keep theirs. */
  ghost predicate Retouches(g: Registry, h: Registry, a: AccountId, sid: Sid, connected: bool) {
    forall r, b :: IsMember(h, r, b) ==>
      if b == a then MemberOf(h, r, b).sid == sid && MemberOf(h, r, b).connected == connected
      else IsMember(g, r, b) && MemberOf(h, r, b) == MemberOf(g, r, b)
  }

  /** An account is a member of the room its index entry names, and of no other. */
  lemma OneRoom(g: Registry, r: RoomId, a: AccountId)
    requires RegistryInv(g) && IsMember(g, r, a)
    ensures a in g.index && g.index[a] == r
  {
    assert Indexed(g);
    assert r in g.rooms && a in g.rooms[r].members;
  }

  lemma RebindRetouches(g: Registry, a: AccountId, sid: Sid)
    requires RegistryInv(g)
    ensures Retouches(g, Rebind(g, a, sid).0, a, sid, true)
  {
    forall r | IsMember(g, r, a) ensures a in g.index && g.index[a] == r {
      OneRoom(g, r, a);
    }
    hide RegistryInv;
  }

  lemma JoinRetouches(g: Registry, r: RoomId, a: AccountId, sid: Sid)
    requires RegistryInv(g) && Join(g, r, a, sid).Ok?
    ensures Retouches(g, Join(g, r, a, sid).value, a, sid, true)
    ensures IsMember(Join(g, r, a, sid).value, r, a)
  {
    forall q | IsMember(g, q, a) ensures a in g.index && g.index[a] == q {
      OneRoom(g, q, a);
    }
    hide RegistryInv;
  }

  lemma OfflineRetouches(g: Registry, r: RoomId, a: AccountId)
    requires RegistryInv(g) && IsMember(g, r, a)
    ensures Retouches(g, MarkedOffline(g, r, a), a, MemberOf(g, r, a).sid, false)
  {
    OneRoom(g, r, a);
    forall q | IsMember(g, q, a) ensures q == r {
      OneRoom(g, q, a);
    }
    hide RegistryInv;
  }

  lemma NewSocket(s: C.Sockets, account: AccountId, sid: Sid)
    requires C.Inverse(s) && sid !in s.accountOf
    ensures var t := C.Replaced(s, account, sid);
            && C.Inverse(t) && t.sidOf == s.sidOf[account := sid]
            && forall x :: x in t.accountOf <==> x == sid || (x in s.accountOf && s.accountOf[x] != account)
    ensures forall x :: x in C.Replaced(s, account, sid).accountOf ==>
              C.Replaced(s, account, sid).accountOf[x] == if x == sid then account else s.accountOf[x]
  {
    C.ReplacedInverse(s, account, sid);
  }

  lemma GoneSocket(s: C.Sockets, sid: Sid)
    requires C.Inverse(s)
    ensures var t := C.Released(s, sid);
            && C.Inverse(t)
            && t.sidOf == (if sid in s.accountOf then s.sidOf - {s.accountOf[sid]} else s.sidOf)
            && t.accountOf == s.accountOf - {sid}
  {
  }

  lemma ConnectedBase(s: Server, account: AccountId, sid: Sid, t: Server)
    requires Base(s) && ServerStep(s, Connected(account, sid), t)
    ensures Base(t) && (Shown(s) ==> Shown(t))
  {
    assert sid !in s.sockets.accountOf;
    RebindInv(s.rooms, account, sid);
    RebindRetouches(s.rooms, account, sid);
    NewSocket(s.sockets, account, sid);
    RetouchedOwned(s, t, account, sid, true);
    hide RegistryInv, Rebind, Retouches, MembersOwned, Shown, C.Inverse, C.Replaced;
    if Shown(s) {
      RetouchedShown(s, t, account, sid);
    }
  }

  lemma RetouchedOwned(s: Server, t: Server, a: AccountId, sid: Sid, connected: bool)
    requires MembersOwned(s) && Retouches(s.rooms, t.rooms, a, sid, connected)
    requires sid in t.sessions && t.sessions[sid] == a
    requires forall x :: x in s.sessions && x != sid ==> x in t.sessions && t.sessions[x] == s.sessions[x]
    requires sid in s.sessions ==> s.sessions[sid] == a
    ensures MembersOwned(t)
  {
    hide IsMember, MemberOf;
  }

  lemma RetouchedShown(s: Server, t: Server, a: AccountId, sid: Sid)
    requires Shown(s) && Retouches(s.rooms, t.rooms, a, sid, true) && t.sockets.sidOf == s.sockets.sidOf[a := sid]
    ensures Shown(t)
  {
    hide IsMember, MemberOf;
  }

  lemma DisconnectedBase(s: Server, sid: Sid, t: Server)
    requires Base(s) && ServerStep(s, Disconnected(sid), t)
    ensures Base(t) && (Shown(s) ==> Shown(t))
  {
    GoneSocket(s.sockets, sid);
    if sid in s.sockets.accountOf {
      var account := s.sockets.accountOf[sid];
      assert s.sockets.sidOf[account] == sid;
      hide C.Inverse, C.Released;
      var found :| Disconnects(s.rooms, sid, t.rooms, found);
      StepInv(s.rooms, Disconnecting(sid), t.rooms);
      if found.Some? {
        var a :| Holds(s.rooms, sid, found.value, a) && t.rooms == MarkedOffline(s.rooms, found.value, a);
        assert IsMember(s.rooms, found.value, a) && MemberOf(s.rooms, found.value, a).sid == sid;
        OfflineRetouches(s.rooms, found.value, a);
        assert a == account;
        RetouchedOwned(s, t, a, sid, false);
        hide RegistryInv, MarkedOffline, MembersOwned, Shown, Retouches, Disconnects, Holds;
        if Shown(s) {
          OfflineShown(s, t, a, sid);
        }
      } else {
        NobodyHolds(s.rooms, sid, t.rooms, account);
        hide RegistryInv, IsMember, MemberOf, Disconnects, Holds;
      }
    } else {
      assert s.sockets.accountOf - {sid} == s.sockets.accountOf;
      hide C.Inverse, C.Released, RegistryInv, IsMember, MemberOf;
    }
  }

  lemma OfflineShown(s: Server, t: Server, a: AccountId, sid: Sid)
    requires Shown(s) && Retouches(s.rooms, t.rooms, a, sid, false) && t.sockets.sidOf == s.sockets.sidOf - {a}
    ensures Shown(t)
  {
    hide IsMember, MemberOf;
  }

  lemma NobodyHolds(g: Registry, sid: Sid, h: Registry, a: AccountId)
    requires Disconnects(g, sid, h, None)
    ensures h == g
    ensures forall r | IsMember(g, r, a) :: !(MemberOf(g, r, a).sid == sid && MemberOf(g, r, a).connected)
  {
    forall r | IsMember(g, r, a) ensures !(MemberOf(g, r, a).sid == sid && MemberOf(g, r, a).connected) {
      assert !Holds(g, sid, r, a);
    }
  }

  lemma EnsureKeepsMembers(g: Registry, r: RoomId, host: AccountId, max: int)
    requires RegistryInv(g)
    ensures RegistryInv(EnsureRoom(g, r, host, max))
    ensures forall q, a :: IsMember(EnsureRoom(g, r, host, max), q, a) ==>
              IsMember(g, q, a) && MemberOf(EnsureRoom(g, r, host, max), q, a) == MemberOf(g, q, a)
  {
    EnsureInv(g, r, host, max);
  }

  lemma JoinedBase(s: Server, sid: Sid, room: RoomId, host: AccountId, max: int, t: Server)
    requires Base(s) && ServerStep(s, Joined(sid, room, host, max), t)
    ensures Base(t)
    ensures Shown(s) && Current(s, Joined(sid, room, host, max)) ==> Shown(t)
  {
    var ensured := EnsureRoom(s.rooms, room, host, max);
    EnsureKeepsMembers(s.rooms, room, host, max);
    if Join(ensured, room, s.sessions[sid], sid).Ok? {
      JoinInv(ensured, room, s.sessions[sid], sid);
      JoinRetouches(ensured, room, s.sessions[sid], sid);
    }
    hide RegistryInv, EnsureRoom, Join, IsMember, MemberOf;
  }

  lemma ManagedBase(s: Server, op: RoomOp, t: Server)
    requires Base(s) && ServerStep(s, Managed(op), t)
    ensures Base(t) && (Shown(s) ==> Shown(t))
  {
    StepInv(s.rooms, op, t.rooms);
    ManagementKeepsSockets(s.rooms, op, t.rooms);
    hide Step, RegistryInv, IsMember, MemberOf;
  }

  /** Management never touches a member's socket or its connected flag, and brings nobody in. */
  lemma ManagementKeepsSockets(g: Registry, op: RoomOp, h: Registry)
    requires Management(op) && Step(g, op, h)
    ensures forall r, a :: IsMember(h, r, a) ==>
              && IsMember(g, r, a)
              && MemberOf(h, r, a).sid == MemberOf(g, r, a).sid
              && MemberOf(h, r, a).connected == MemberOf(g, r, a).connected
  {
    match op
    case Leaving(r, a) =>
      if r in g.rooms && a in g.rooms[r].members {
        var heir :| Succeeds(g, r, a, heir) && h == Left(g, r, a, heir);
      }
    case _ =>
  }

  lemma StepKeeps(s: Server, e: Event, t: Server)
    requires Base(s) && ServerStep(s, e, t)
    ensures Base(t)
    ensures Shown(s) && Current(s, e) ==> Shown(t)
  {
    hide Base, Shown;
    match e
    case Connected(account, sid) => ConnectedBase(s, account, sid, t);
    case Disconnected(sid) => DisconnectedBase(s, sid, t);
    case Joined(sid, room, host, max) => JoinedBase(s, sid, room, host, max, t);
    case Managed(op) => ManagedBase(s, op, t);
  }

  lemma StartKeeps()
    ensures Base(START) && Shown(START)
  {
  }

  lemma {:induction false} BaseAlways(states: seq<Server>, events: seq<Event>)
    requires Run(states, events)
    ensures forall i :: 0 <= i < |states| ==> Base(states[i])
  {
    hide Base, Shown, ServerStep, Current;
    if events == [] {
      StartKeeps();
    } else {
      var n := |events| - 1;
      BaseAlways(states[..|states| - 1], events[..n]);
      assert states[n] == states[..|states| - 1][n];
      StepKeeps(states[n], events[n], states[n + 1]);
    }
  }

  /** A join that succeeds keeps the display exact if and only if it comes from the current socket. */
  lemma JoinKeepsExactIff(s: Server, sid: Sid, room: RoomId, host: AccountId, max: int, t: Server)
    requires Base(s) && Shown(s) && ServerStep(s, Joined(sid, room, host, max), t)
    requires Join(EnsureRoom(s.rooms, room, host, max), room, s.sessions[sid], sid).Ok?
    ensures Shown(t) <==> Current(s, Joined(sid, room, host, max))
  {
    var ensured, a := EnsureRoom(s.rooms, room, host, max), s.sessions[sid];
    JoinedBase(s, sid, room, host, max, t);
    EnsureKeepsMembers(s.rooms, room, host, max);
    JoinRetouches(ensured, room, a, sid);
    hide RegistryInv, EnsureRoom, Join, IsMember, MemberOf;
    assert IsMember(t.rooms, room, a);
    assert MemberOf(t.rooms, room, a).sid == sid && MemberOf(t.rooms, room, a).connected;
  }

  /** The event is a join that succeeds. */
  predicate Joins(s: Server, e: Event) {
    e.Joined? && e.sid in s.sessions
    && Join(EnsureRoom(s.rooms, e.room, e.host, e.maxPlayers), e.room, s.sessions[e.sid], e.sid).Ok?
  }

  /** A refused join may open an empty room, but touches no member. */
  lemma RefusedJoinKeeps(s: Server, e: Event, t: Server)
    requires Base(s) && ServerStep(s, e, t) && e.Joined? && !Joins(s, e)
    ensures Shown(s) ==> Shown(t)
  {
    EnsureKeepsMembers(s.rooms, e.room, e.host, e.maxPlayers);
    hide RegistryInv, EnsureRoom, Join, IsMember, MemberOf;
  }

  /** One event leaves an exact display exact unless it is a join that succeeds from a superseded socket. */
  lemma StepKeepsExactIff(s: Server, e: Event, t: Server)
    requires Base(s) && Shown(s) && ServerStep(s, e, t)
    ensures Shown(t) <==> (Joins(s, e) ==> Current(s, e))
  {
    if Joins(s, e) {
      JoinKeepsExactIff(s, e.sid, e.room, e.host, e.maxPlayers, t);
    } else if e.Joined? {
      RefusedJoinKeeps(s, e, t);
    } else {
      hide Base, Shown;
      StepKeeps(s, e, t);
    }
  }

  /**
   * At every moment of a run a member is shown as connected exactly when its account has a socket open, if and
   * only if every join that succeeds comes from the socket that is current when it is handled.
   */
  lemma {:induction false} OnlineIsExactIff(states: seq<Server>, events: seq<Event>)
    requires Run(states, events)
    ensures (forall i :: 0 <= i < |states| ==> Shown(states[i])) <==>
            (forall i :: 0 <= i < |events| ==> (Joins(states[i], events[i]) ==> Current(states[i], events[i])))
  {
    hide Base, Shown, ServerStep, Current, Joins;
    if events == [] {
      StartKeeps();
    } else {
      var n := |events| - 1;
      var earlier := states[..|states| - 1];
      assert forall i :: 0 <= i <= n ==> earlier[i] == states[i];
      assert forall i :: 0 <= i < n ==> events[..n][i] == events[i];
      OnlineIsExactIff(earlier, events[..n]);
      StepAt(states, events, n);
      if Shown(states[n]) {
        StepKeepsExactIff(states[n], events[n], states[n + 1]);
      }
    }
  }

  // ---------------------------------------------------------------------------------------------
  // Late disconnects
  // ---------------------------------------------------------------------------------------------

  predicate Superseded(s: Server, sid: Sid) {
    sid in s.sessions && sid !in s.sockets.accountOf
  }

  lemma SupersededStays(s: Server, e: Event, t: Server, sid: Sid)
    requires Superseded(s, sid) && ServerStep(s, e, t)
    ensures Superseded(t, sid)
    ensures e == Disconnected(sid) ==> t == s
  {
    assert s.sockets.accountOf - {sid} == s.sockets.accountOf;
    hide Step, Disconnects;
  }

  /**
   * A reconnect supersedes the account's previous socket for good: whenever that socket's disconnect
   * arrives, however late and whatever happened in between, it changes neither registry.
   */
  lemma {:induction false} LateDisconnectIsHarmless(states: seq<Server>, events: seq<Event>, i: nat, j: nat, sid: Sid)
    requires Run(states, events) && i < j < |events|
    requires events[i].Connected? && C.Lookup(states[i].sockets.sidOf, events[i].account) == Some(sid)
    ensures Superseded(states[j], sid)
    ensures events[j] == Disconnected(sid) ==> states[j + 1] == states[j]
    decreases j
  {
    hide Base, ServerStep, Run, Superseded;
    StepAt(states, events, i);
    StepAt(states, events, j - 1);
    StepAt(states, events, j);
    if j == i + 1 {
      NewSocketSupersedes(states[i], events[i].account, events[i].sid, states[j], sid);
    } else {
      LateDisconnectIsHarmless(states, events, i, j - 1, sid);
      SupersededStays(states[j - 1], events[j - 1], states[j], sid);
    }
    SupersededStays(states[j], events[j], states[j + 1], sid);
  }

  lemma StepAt(states: seq<Server>, events: seq<Event>, k: nat)
    requires Run(states, events) && k < |events|
    ensures |states| == |events| + 1 && Base(states[k]) && ServerStep(states[k], events[k], states[k + 1])
  {
    hide Base, ServerStep;
    BaseAlways(states, events);
  }

  lemma NewSocketSupersedes(s: Server, account: AccountId, newer: Sid, t: Server, sid: Sid)
    requires Base(s) && ServerStep(s, Connected(account, newer), t)
    requires C.Lookup(s.sockets.sidOf, account) == Some(sid)
    ensures Superseded(t, sid)
  {
    NewSocket(s.sockets, account, newer);
    hide RegistryInv;
  }

  // ---------------------------------------------------------------------------------------------
  // A join from a superseded socket
  // ---------------------------------------------------------------------------------------------

  function StaleRoom(sid: Sid): Registry {
    Registry(map[5 := Room(1, 2, map[1 := Member(sid, false, None, true, 0)], 1)], map[1 := 5])
  }

  /**
   * Account 1 joins room 5 on socket 10, reconnects on socket 11, and a second join sent earlier on
   * socket 10 is handled after that. Both sockets then close; the account stays shown as connected.
   */
  lemma StaleJoinStaysOnline() returns (states: seq<Server>, events: seq<Event>)
    ensures Run(states, events) && |events| == 6
    ensures var last := states[6];
            && last.sockets == C.Sockets(map[], map[])
            && last.rooms == StaleRoom(10) && !Shown(last)
  {
    var s1 := Server(C.Sockets(map[1 := 10], map[10 := 1]), EMPTY, map[10 := 1]);
    var s2 := s1.(rooms := StaleRoom(10));
    var s3 := Server(C.Sockets(map[1 := 11], map[11 := 1]), StaleRoom(11), map[10 := 1, 11 := 1]);
    var s4 := s3.(rooms := StaleRoom(10));
    var s6 := s4.(sockets := C.Sockets(map[], map[]));
    StaleBeginning();
    StaleEnding();
    StaleShown(s6);
    hide ServerStep, Shown, StaleRoom;
    states, events := SixSteps(
      s1, s2, s3, s4, s4, s6,
      Connected(1, 10), Joined(10, 5, 1, 2), Connected(1, 11), Joined(10, 5, 1, 2), Disconnected(10), Disconnected(11));
  }

  lemma SixSteps(s1: Server, s2: Server, s3: Server, s4: Server, s5: Server, s6: Server,
                 e1: Event, e2: Event, e3: Event, e4: Event, e5: Event, e6: Event)
    returns (states: seq<Server>, events: seq<Event>)
    requires ServerStep(START, e1, s1) && ServerStep(s1, e2, s2) && ServerStep(s2, e3, s3)
    requires ServerStep(s3, e4, s4) && ServerStep(s4, e5, s5) && ServerStep(s5, e6, s6)
    ensures Run(states, events) && |events| == 6 && states[6] == s6
  {
    hide ServerStep;
    states := [START, s1, s2, s3, s4, s5, s6];
    events := [e1, e2, e3, e4, e5, e6];
  }

  lemma StaleShown(s: Server)
    requires s.sockets == C.Sockets(map[], map[]) && s.rooms == StaleRoom(10)
    ensures !Shown(s)
  {
    assert IsMember(s.rooms, 5, 1) && MemberOf(s.rooms, 5, 1).connected;
  }

  lemma StaleRecord(sid: Sid, newer: Sid)
    ensures WithMember(StaleRoom(sid), 5, 1, Member(newer, false, None, true, 0)) == StaleRoom(newer)
  {
    var one := map[1 := Member(newer, false, None, true, 0)];
    assert StaleRoom(sid).rooms[5].members[1 := Member(newer, false, None, true, 0)] == one;
  }

  lemma StaleBeginning()
    ensures var s1 := Server(C.Sockets(map[1 := 10], map[10 := 1]), EMPTY, map[10 := 1]);
            var s3 := Server(C.Sockets(map[1 := 11], map[11 := 1]), StaleRoom(11), map[10 := 1, 11 := 1]);
            && ServerStep(START, Connected(1, 10), s1)
            && ServerStep(s1, Joined(10, 5, 1, 2), s1.(rooms := StaleRoom(10)))
            && ServerStep(s1.(rooms := StaleRoom(10)), Connected(1, 11), s3)
  {
    StaleRecord(10, 11);
    assert Rebind(StaleRoom(10), 1, 11).0 == StaleRoom(11);
    hide WithMember, StaleRoom;
  }

  lemma StaleEnding()
    ensures var s3 := Server(C.Sockets(map[1 := 11], map[11 := 1]), StaleRoom(11), map[10 := 1, 11 := 1]);
            var s4 := s3.(rooms := StaleRoom(10));
            && ServerStep(s3, Joined(10, 5, 1, 2), s4)
            && ServerStep(s4, Disconnected(10), s4)
            && ServerStep(s4, Disconnected(11), s4.(sockets := C.Sockets(map[], map[])))
  {
    StaleRecord(11, 10);
    assert Join(StaleRoom(11), 5, 1, 10) == Ok(StaleRoom(10));
    assert EnsureRoom(StaleRoom(11), 5, 1, 2) == StaleRoom(11);
    assert Disconnects(StaleRoom(10), 11, StaleRoom(10), None);
    hide WithMember, StaleRoom, Disconnects, Join, EnsureRoom;
  }
}
