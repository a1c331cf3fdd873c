/** Who is in which room, and who is ready, told exactly by what has been asked of the registry. */
module RoomHistories {
  import opened Prelude
  import opened Rooms

  predicate Sits(g: Registry, r: RoomId, a: AccountId) {
    r in g.rooms && a in g.rooms[r].members
  }

  /** The room is open, the account is in no other one, and there is a place, its own or a free one. */
  ghost predicate MayJoin(g: Registry, r: RoomId, a: AccountId) {
    && r in g.rooms && (forall q :: Sits(g, q, a) ==> q == r)
    && (Sits(g, r, a) || |g.rooms[r].members| < g.rooms[r].maxPlayers)
  }

  lemma IndexTells(g: Registry, r: RoomId, a: AccountId)
    requires RegistryInv(g)
    ensures Sits(g, r, a) <==> a in g.index && g.index[a] == r
  {
    assert Indexed(g);
  }

  /** A join succeeds exactly when nothing speaks against it. */
  lemma JoinOkIff(g: Registry, r: RoomId, a: AccountId, sid: Sid)
    requires RegistryInv(g)
    ensures Join(g, r, a, sid).Ok? <==> MayJoin(g, r, a)
  {
    if a in g.index {
      IndexTells(g, g.index[a], a);
    }
    forall q | Sits(g, q, a) ensures a in g.index && g.index[a] == q {
      IndexTells(g, q, a);
    }
    hide RegistryInv;
  }

  // ---------------------------------------------------------------------------------------------
  // Each operation, seen by one account in one room
  // ---------------------------------------------------------------------------------------------

  lemma SearchTells(g: Registry, sid: Sid, h: Registry, r: RoomId, a: AccountId)
    requires Step(g, Disconnecting(sid), h)
    ensures Sits(h, r, a) == Sits(g, r, a) && IsReady(h, r, a) == IsReady(g, r, a)
    ensures r in h.rooms <==> r in g.rooms
    ensures r in g.rooms ==> h.rooms[r].maxPlayers == g.rooms[r].maxPlayers
  {
    var found :| Disconnects(g, sid, h, found);
    if found.Some? {
      var b :| Holds(g, sid, found.value, b) && h == MarkedOffline(g, found.value, b);
    }
  }

  lemma LeaveTells(g: Registry, q: RoomId, b: AccountId, h: Registry, r: RoomId, a: AccountId)
    requires Step(g, Leaving(q, b), h)
    ensures Sits(h, r, a) <==> Sits(g, r, a) && !(r == q && a == b)
    ensures IsReady(h, r, a) <==> IsReady(g, r, a) && !(r == q && a == b)
    ensures r in h.rooms <==> r in g.rooms
    ensures r in g.rooms ==> h.rooms[r].maxPlayers == g.rooms[r].maxPlayers
  {
    if q in g.rooms && b in g.rooms[q].members {
      var heir :| Succeeds(g, q, b, heir) && h == Left(g, q, b, heir);
    }
  }

  lemma JoinTells(g: Registry, q: RoomId, b: AccountId, sid: Sid, h: Registry, r: RoomId, a: AccountId)
    requires RegistryInv(g) && Step(g, Joining(q, b, sid), h)
    ensures Sits(h, r, a) <==> Sits(g, r, a) || (r == q && a == b && MayJoin(g, r, a))
    ensures IsReady(h, r, a) <==> IsReady(g, r, a)
  {
    JoinOkIff(g, q, b, sid);
    hide RegistryInv, MayJoin;
  }

  lemma RebindTells(g: Registry, b: AccountId, sid: Sid, h: Registry, r: RoomId, a: AccountId)
    requires Step(g, Rebinding(b, sid), h)
    ensures Sits(h, r, a) == Sits(g, r, a) && IsReady(h, r, a) == IsReady(g, r, a)
  {
  }

  lemma ReadyingTells(g: Registry, q: RoomId, b: AccountId, ready: bool, h: Registry, r: RoomId, a: AccountId)
    requires Step(g, Readying(q, b, ready), h)
    ensures Sits(h, r, a) == Sits(g, r, a)
    ensures IsReady(h, r, a) <==> if r == q && a == b then ready && Sits(g, r, a) else IsReady(g, r, a)
  {
  }

  lemma TidyTells(g: Registry, q: RoomId, h: Registry, r: RoomId, a: AccountId)
    requires Step(g, Tidying(q), h)
    ensures Sits(h, r, a) == Sits(g, r, a) && IsReady(h, r, a) == IsReady(g, r, a)
    ensures r in h.rooms <==> r in g.rooms && !(r == q && |g.rooms[q].members| == 0)
    ensures r in g.rooms && r in h.rooms ==> h.rooms[r] == g.rooms[r]
  {
    if q in g.rooms {
      assert |g.rooms[q].members| == |g.rooms[q].members.Keys|;
      assert Sits(g, q, a) ==> a in g.rooms[q].members.Keys;
    }
  }

  lemma CloseTells(g: Registry, q: RoomId, h: Registry, r: RoomId, a: AccountId)
    requires Step(g, Closing(q), h)
    ensures Sits(h, r, a) <==> Sits(g, r, a) && r != q
    ensures IsReady(h, r, a) <==> IsReady(g, r, a) && r != q
  {
  }

  lemma ResetTells(g: Registry, q: RoomId, h: Registry, r: RoomId, a: AccountId)
    requires Step(g, Resetting(q), h)
    ensures Sits(h, r, a) == Sits(g, r, a)
    ensures IsReady(h, r, a) <==> IsReady(g, r, a) && r != q
  {
  }

  lemma EnsureTells(g: Registry, q: RoomId, host: AccountId, max: int, h: Registry, r: RoomId, a: AccountId)
    requires Step(g, Ensuring(q, host, max), h)
    ensures Sits(h, r, a) == Sits(g, r, a) && IsReady(h, r, a) == IsReady(g, r, a)
  {
  }

  lemma StepTells(g: Registry, op: RoomOp, h: Registry, r: RoomId, a: AccountId)
    requires RegistryInv(g) && Step(g, op, h)
    ensures Sits(h, r, a) <==> Enters(g, op, r, a) || (Sits(g, r, a) && !Ends(op, r, a))
    ensures IsReady(h, r, a) <==> SaysReady(g, op, r, a) || (IsReady(g, r, a) && !Unreadies(op, r, a))
  {
    ReadySits(g, r, a);
    hide Step, RegistryInv, Sits, IsReady, MayJoin;
    match op
    case Ensuring(q, host, max) => EnsureTells(g, q, host, max, h, r, a);
    case Joining(q, b, sid) => JoinTells(g, q, b, sid, h, r, a);
    case Rebinding(b, sid) => RebindTells(g, b, sid, h, r, a);
    case Disconnecting(sid) => SearchTells(g, sid, h, r, a);
    case Readying(q, b, ready) => ReadyingTells(g, q, b, ready, h, r, a);
    case Leaving(q, b) => LeaveTells(g, q, b, h, r, a);
    case Closing(q) => CloseTells(g, q, h, r, a);
    case Tidying(q) => TidyTells(g, q, h, r, a);
    case Resetting(q) => ResetTells(g, q, h, r, a);
  }

  lemma ReadySits(g: Registry, r: RoomId, a: AccountId)
    ensures IsReady(g, r, a) ==> Sits(g, r, a)
  {
  }

  // ---------------------------------------------------------------------------------------------
  // Membership
  // ---------------------------------------------------------------------------------------------

  ghost predicate Enters(g: Registry, op: RoomOp, r: RoomId, a: AccountId) {
    op.Joining? && op.room == r && op.account == a && MayJoin(g, r, a)
  }

  predicate Ends(op: RoomOp, r: RoomId, a: AccountId) {
    op == Leaving(r, a) || op == Closing(r)
  }

  /** An account is in a room exactly when it was let in and has neither left nor seen the room closed since. */
  lemma {:induction false} SitsIff(states: seq<Registry>, ops: seq<RoomOp>, r: RoomId, a: AccountId, j: nat)
    requires Run(states, ops) && j < |states|
    ensures Sits(states[j], r, a) <==>
            exists i :: 0 <= i < j && Enters(states[i], ops[i], r, a) && forall k :: i < k < j ==> !Ends(ops[k], r, a)
  {
    hide Step, RegistryInv, Sits, Enters, Ends, IsReady, SaysReady, Unreadies;
    if j == 0 {
      NobodySits(r, a);
    } else {
      RunInv(states, ops);
      SitsIff(states, ops, r, a, j - 1);
      assert Step(states[j - 1], ops[j - 1], states[j - 1 + 1]);
      StepTells(states[j - 1], ops[j - 1], states[j], r, a);
    }
  }

  lemma NobodySits(r: RoomId, a: AccountId)
    ensures !Sits(EMPTY, r, a)
  {
  }

  // ---------------------------------------------------------------------------------------------
  // Readiness
  // ---------------------------------------------------------------------------------------------

  predicate SaysReady(g: Registry, op: RoomOp, r: RoomId, a: AccountId) {
    op == Readying(r, a, true) && Sits(g, r, a)
  }

  /**
   * A member counts as ready exactly when it said so in that room, with neither a reset, a withdrawal, a
   * departure nor the closing of the room since.
   */
  lemma {:induction false} ReadyIff(states: seq<Registry>, ops: seq<RoomOp>, r: RoomId, a: AccountId, j: nat)
    requires Run(states, ops) && j < |states|
    ensures IsReady(states[j], r, a) <==>
            exists i :: 0 <= i < j && SaysReady(states[i], ops[i], r, a) && forall k :: i < k < j ==> !Unreadies(ops[k], r, a)
  {
    hide Step, RegistryInv, IsReady, SaysReady, Unreadies, Sits, Enters, Ends;
    if j == 0 {
      NobodyReady(r, a);
    } else {
      RunInv(states, ops);
      ReadyIff(states, ops, r, a, j - 1);
      assert Step(states[j - 1], ops[j - 1], states[j - 1 + 1]);
      StepTells(states[j - 1], ops[j - 1], states[j], r, a);
    }
  }

  // ---------------------------------------------------------------------------------------------
  // Rooms
  // ---------------------------------------------------------------------------------------------

  /** The operation closes the room: outright, or because nobody is in it. */
  predicate Shuts(g: Registry, op: RoomOp, r: RoomId) {
    op == Closing(r) || (op == Tidying(r) && r in g.rooms && |g.rooms[r].members| == 0)
  }

  lemma OpenStep(g: Registry, op: RoomOp, h: Registry, r: RoomId)
    requires Step(g, op, h)
    ensures r in h.rooms <==> (op.Ensuring? && op.room == r) || (r in g.rooms && !Shuts(g, op, r))
    ensures r in g.rooms && r in h.rooms ==> h.rooms[r].maxPlayers == g.rooms[r].maxPlayers
    ensures op.Ensuring? && op.room == r && r !in g.rooms ==> h.rooms[r] == Room(op.host, op.maxPlayers, map[], 0)
  {
    match op
    case Disconnecting(sid) => SearchTells(g, sid, h, r, 0);
    case Leaving(q, b) => LeaveTells(g, q, b, h, r, 0);
    case Tidying(q) =>
      TidyTells(g, q, h, r, 0);
      hide Sits;
    case _ => hide Sits;
  }
}
