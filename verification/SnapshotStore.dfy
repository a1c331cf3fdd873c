/** The client's snapshot store: what it shows when server snapshots arrive late, twice or out of order. */
module SnapshotStore {
  import opened Prelude
  import opened PokerHand

  type Card = nat

  datatype TableAction = TableAction(
    sequenceNo: int, accountId: AccountId, street: Street, action: ActionType, amount: Option<int>)

  datatype TablePlayer = TablePlayer(accountId: AccountId, stack: int, allIn: bool)

  /** A server snapshot; a private one also carries the hero's hole cards. */
  datatype Snapshot = Snapshot(
    matchId: nat, handId: nat, version: nat, players: seq<TablePlayer>, actions: seq<TableAction>, board: seq<Card>,
    actor: Option<AccountId>, remaining: Option<int>, holeCards: Option<seq<Card>>)

  datatype HandResult = HandResult(matchId: nat, handId: nat)

  datatype PendingAction = PendingAction(matchId: nat, version: nat)

  datatype Store = Store(
    public: Option<Snapshot>, private: Option<Snapshot>, handSettled: Option<HandResult>, pending: Option<PendingAction>)

  const BLANK := Store(None, None, None, None)

  function VersionOf(s: Option<Snapshot>): int {
    if s.Some? then s.value.version else -1
  }

  function CurrentMatch(st: Store): Option<nat> {
    if st.public.Some? then Some(st.public.value.matchId)
    else if st.private.Some? then Some(st.private.value.matchId)
    else None
  }

  /** Older than what is held for the same match. */
  predicate Stale(st: Store, s: Snapshot) {
    CurrentMatch(st) == Some(s.matchId) && s.version < Max(VersionOf(st.public), VersionOf(st.private))
  }

  function KeptResult(st: Store, s: Snapshot): Option<HandResult> {
    if st.handSettled.Some? && st.handSettled.value.matchId == s.matchId then st.handSettled else None
  }

  /** A pending action is over once a newer version of its match is seen. */
  function KeptPending(st: Store, s: Snapshot): Option<PendingAction> {
    if st.pending.Some? && st.pending.value.matchId == s.matchId && s.version > st.pending.value.version then None
    else st.pending
  }

  function OnPublic(st: Store, s: Snapshot): Store {
    if Stale(st, s) then st
    else
      var sameHand := st.private.Some? && st.private.value.matchId == s.matchId && st.private.value.handId == s.handId;
      Store(Some(s), if sameHand then st.private else None, KeptResult(st, s), KeptPending(st, s))
  }

  function OnPrivate(st: Store, s: Snapshot): Store {
    if Stale(st, s) then st
    else Store(Some(s), Some(s), KeptResult(st, s), KeptPending(st, s))
  }

  datatype StoreEvent =
    | Public(snapshot: Snapshot)
    | Private(snapshot: Snapshot)
    | HandSettled(result: HandResult)
    | ResultExpired(result: HandResult)
    | Submitted(action: PendingAction)
    | Rejected
    | Reset

  function Handle(st: Store, e: StoreEvent): Store {
    match e
    case Public(s) => OnPublic(st, s)
    case Private(s) => OnPrivate(st, s)
    case HandSettled(result) => st.(handSettled := Some(result))
    case ResultExpired(result) => if st.handSettled == Some(result) then st.(handSettled := None) else st
    case Submitted(action) => if st.pending.Some? then st else st.(pending := Some(action))
    case Rejected => st.(pending := None)
    case Reset => BLANK
  }

  function After(events: seq<StoreEvent>): Store {
    if events == [] then BLANK else Handle(After(events[..|events| - 1]), events[|events| - 1])
  }

  // ---------------------------------------------------------------------------------------------
  // Coherence
  // ---------------------------------------------------------------------------------------------

  /** A private snapshot is only held beside a public one of the same match and hand that is no older. */
  predicate Coherent(st: Store) {
    st.private.Some? ==>
      && st.public.Some?
      && st.private.value.matchId == st.public.value.matchId
      && st.private.value.handId == st.public.value.handId
      && st.private.value.version <= st.public.value.version
  }

  lemma {:induction false} AlwaysCoherent(events: seq<StoreEvent>)
    ensures Coherent(After(events))
  {
    if events != [] {
      AlwaysCoherent(events[..|events| - 1]);
    }
  }

  /** The match on show after the first k events. */
  predicate OnShow(events: seq<StoreEvent>, k: nat, matchId: nat)
    requires k <= |events|
  {
    After(events[..k]).public.Some? && After(events[..k]).public.value.matchId == matchId
  }

  lemma AfterOne(events: seq<StoreEvent>, k: nat)
    requires k < |events|
    ensures After(events[..k + 1]) == Handle(After(events[..k]), events[k])
  {
    assert events[..k + 1][..k] == events[..k];
  }

  /** As long as one match stays on show, its version never goes down. */
  lemma {:induction false} VersionNeverDrops(events: seq<StoreEvent>, i: nat, j: nat, matchId: nat)
    requires i <= j <= |events| && forall k :: i <= k <= j ==> OnShow(events, k, matchId)
    ensures VersionOf(After(events[..i]).public) <= VersionOf(After(events[..j]).public)
    decreases j
  {
    if i < j {
      hide After, Handle;
      VersionNeverDrops(events, i, j - 1, matchId);
      AfterOne(events, j - 1);
      AlwaysCoherent(events[..j - 1]);
      assert OnShow(events, j - 1, matchId) && OnShow(events, j, matchId);
      VersionStep(After(events[..j - 1]), events[j - 1]);
    }
  }

  lemma VersionStep(st: Store, e: StoreEvent)
    requires Coherent(st) && st.public.Some? && Handle(st, e).public.Some?
    requires st.public.value.matchId == Handle(st, e).public.value.matchId
    ensures VersionOf(st.public) <= VersionOf(Handle(st, e).public)
  {
  }

  /** Going to another match and back is enough to bring an older version of the first one up again. */
  lemma VersionDropsAcrossMatches(a: Snapshot, b: Snapshot, older: Snapshot)
    requires a.matchId == older.matchId != b.matchId && older.version < a.version
    ensures After([Public(a)]).public == Some(a)
    ensures After([Public(a), Public(b), Public(older)]).public == Some(older)
  {
    assert [Public(a)][..0] == [];
    assert After([]) == BLANK;
    assert [Public(a), Public(b)][..1] == [Public(a)];
    assert [Public(a), Public(b), Public(older)][..2] == [Public(a), Public(b)];
  }

  // ---------------------------------------------------------------------------------------------
  // Convergence within one match
  // ---------------------------------------------------------------------------------------------

  predicate Delivers(e: StoreEvent) {
    e.Public? || e.Private?
  }

  /** No reset, and every snapshot belongs to the one match. */
  predicate OneMatch(events: seq<StoreEvent>, matchId: nat) {
    forall i :: 0 <= i < |events| ==> !events[i].Reset? && (Delivers(events[i]) ==> events[i].snapshot.matchId == matchId)
  }

  /** The newest version among the snapshots delivered, or -1. */
  function Newest(events: seq<StoreEvent>): int {
    if events == [] then -1
    else
      var e := events[|events| - 1];
      Max(Newest(events[..|events| - 1]), if Delivers(e) then e.snapshot.version else -1)
  }

  lemma OneMatchPrefix(events: seq<StoreEvent>, matchId: nat)
    requires OneMatch(events, matchId) && events != []
    ensures OneMatch(events[..|events| - 1], matchId)
  {
  }

  /** What is on show is a delivered snapshot of the newest version. */
  lemma {:induction false} ShowsNewest(events: seq<StoreEvent>, matchId: nat)
    requires OneMatch(events, matchId)
    ensures var shown := After(events).public;
            && VersionOf(shown) == Newest(events)
            && (shown.Some? ==> exists i :: 0 <= i < |events| && Delivers(events[i]) && events[i].snapshot == shown.value)
    ensures After(events).public.Some? ==> After(events).public.value.matchId == matchId
  {
    if events != [] {
      var n := |events| - 1;
      OneMatchPrefix(events, matchId);
      ShowsNewest(events[..n], matchId);
      AlwaysCoherent(events[..n]);
      var st := After(events[..n]);
      assert !events[n].Reset?;
      if st.public.Some? {
        var i :| 0 <= i < n && Delivers(events[..n][i]) && events[..n][i].snapshot == st.public.value;
        assert Delivers(events[i]) && events[i].snapshot == st.public.value;
      }
      if Delivers(events[n]) {
        assert events[n].snapshot.matchId == matchId;
      }
    }
  }

  lemma {:induction false} NewestIsMax(events: seq<StoreEvent>)
    ensures forall i :: 0 <= i < |events| && Delivers(events[i]) ==> events[i].snapshot.version <= Newest(events)
    ensures Newest(events) == -1 ||
            exists i :: 0 <= i < |events| && Delivers(events[i]) && events[i].snapshot.version == Newest(events)
  {
    if events != [] {
      var n := |events| - 1;
      NewestIsMax(events[..n]);
      forall i | 0 <= i < |events| && Delivers(events[i]) ensures events[i].snapshot.version <= Newest(events) {
        if i < n {
          assert events[..n][i] == events[i];
        }
      }
      if Newest(events) != -1 && Newest(events) == Newest(events[..n]) {
        var i :| 0 <= i < n && Delivers(events[..n][i]) && events[..n][i].snapshot.version == Newest(events[..n]);
        assert Delivers(events[i]) && events[i].snapshot.version == Newest(events);
      }
    }
  }

  lemma NewestSame(xs: seq<StoreEvent>, ys: seq<StoreEvent>)
    requires forall e :: e in xs ==> e in ys
    ensures Newest(xs) <= Newest(ys)
  {
    NewestIsMax(xs);
    NewestIsMax(ys);
    NewestAtLeast(ys);
    if Newest(xs) != -1 {
      var i :| 0 <= i < |xs| && Delivers(xs[i]) && xs[i].snapshot.version == Newest(xs);
      assert xs[i] in ys;
      var j :| 0 <= j < |ys| && ys[j] == xs[i];
    }
  }

  lemma {:induction false} NewestAtLeast(events: seq<StoreEvent>)
    ensures Newest(events) >= -1
  {
    if events != [] {
      NewestAtLeast(events[..|events| - 1]);
    }
  }

  /** What both kinds of snapshot show of a version; the time left depends on when it was sent. */
  function Shared(s: Snapshot): Snapshot {
    s.(holeCards := None, remaining := None)
  }

  /** The server shows the same table whenever it shows the same version of a match. */
  ghost predicate OneTablePerVersion(events: seq<StoreEvent>) {
    forall e, f :: e in events && f in events && Delivers(e) && Delivers(f) && e.snapshot.version == f.snapshot.version ==>
      Shared(e.snapshot) == Shared(f.snapshot)
  }

  /**
   * However the snapshots of one match are reordered, duplicated or, short of losing the newest, mixed
   * with other events: two clients that saw the same set of events show the same version of the table.
   */
  lemma ReorderingConverges(xs: seq<StoreEvent>, ys: seq<StoreEvent>, matchId: nat)
    requires OneMatch(xs, matchId) && OneMatch(ys, matchId)
    requires forall e :: e in xs <==> e in ys
    ensures VersionOf(After(xs).public) == VersionOf(After(ys).public) == Newest(xs) == Newest(ys)
    ensures OneTablePerVersion(xs) && After(xs).public.Some? ==>
              After(ys).public.Some? && Shared(After(xs).public.value) == Shared(After(ys).public.value)
  {
    ShowsNewest(xs, matchId);
    ShowsNewest(ys, matchId);
    NewestSame(xs, ys);
    NewestSame(ys, xs);
    var shown, other := After(xs).public, After(ys).public;
    if OneTablePerVersion(xs) && shown.Some? {
      var i :| 0 <= i < |xs| && Delivers(xs[i]) && xs[i].snapshot == shown.value;
      var j :| 0 <= j < |ys| && Delivers(ys[j]) && ys[j].snapshot == other.value;
      assert xs[i] in xs && ys[j] in xs;
    }
  }

  // ---------------------------------------------------------------------------------------------
  // Hole cards
  // ---------------------------------------------------------------------------------------------

  predicate DealtAtNewest(events: seq<StoreEvent>) {
    exists i :: 0 <= i < |events| && events[i].Private? && events[i].snapshot.version == Newest(events)
  }

  /** A held private snapshot of the newest version survives whatever is not newer. */
  lemma HandleKeepsHeld(st: Store, e: StoreEvent, matchId: nat)
    requires Coherent(st) && st.private.Some? && VersionOf(st.public) == VersionOf(st.private)
    requires st.public.value.matchId == matchId && !e.Reset?
    requires Delivers(e) ==> e.snapshot.matchId == matchId && e.snapshot.version <= VersionOf(st.public)
    requires Delivers(e) && e.snapshot.version == VersionOf(st.public) ==> e.snapshot.handId == st.private.value.handId
    ensures var held := Handle(st, e).private;
            VersionOf(held) == VersionOf(st.private) && (held == st.private || (held.Some? && e == Private(held.value)))
  {
  }

  lemma SameTableSameHand(events: seq<StoreEvent>, i: nat, j: nat)
    requires OneTablePerVersion(events) && i < |events| && j < |events| && Delivers(events[i]) && Delivers(events[j])
    requires events[i].snapshot.version == events[j].snapshot.version
    ensures events[i].snapshot.handId == events[j].snapshot.handId
  {
    assert events[i] in events && events[j] in events;
    assert Shared(events[i].snapshot).handId == events[i].snapshot.handId;
  }

  lemma {:induction false} NewestPrivateHeld(events: seq<StoreEvent>, matchId: nat) returns (k: nat)
    requires OneMatch(events, matchId) && OneTablePerVersion(events) && DealtAtNewest(events)
    ensures k < |events| && After(events).private.Some? && events[k] == Private(After(events).private.value)
    ensures events[k].snapshot.version == Newest(events)
  {
    var n := |events| - 1;
    var prefix, e := events[..n], events[n];
    assert events == prefix + [e];
    OneMatchPrefix(events, matchId);
    assert OneTablePerVersion(prefix) by {
      assert forall x :: x in prefix ==> x in events;
    }
    ShowsNewest(prefix, matchId);
    AlwaysCoherent(prefix);
    if e.Private? && e.snapshot.version == Newest(events) {
      k := n;
    } else {
      var i :| 0 <= i < |events| && events[i].Private? && events[i].snapshot.version == Newest(events);
      assert prefix[i] == events[i];
      NewestIsMax(prefix);
      k := NewestPrivateHeld(prefix, matchId);
      if Delivers(e) && e.snapshot.version == Newest(prefix) {
        SameTableSameHand(events, k, n);
      }
      hide OneTablePerVersion, DealtAtNewest, Newest, OneMatch;
      HandleKeepsHeld(After(prefix), e, matchId);
    }
  }

  /** A held private snapshot was delivered as one. */
  lemma {:induction false} HeldWasDelivered(events: seq<StoreEvent>)
    ensures var held := After(events).private;
            held.Some? ==> exists i :: 0 <= i < |events| && events[i] == Private(held.value)
  {
    if events != [] {
      var n := |events| - 1;
      HeldWasDelivered(events[..n]);
      var st, held := After(events[..n]), After(events).private;
      if st.private.Some? {
        var i :| 0 <= i < n && events[..n][i] == Private(st.private.value);
        assert events[i] == Private(st.private.value);
      }
      assert held.Some? ==> held == st.private || events[n] == Private(held.value);
    }
  }

  /** What the hero holds, whenever it was sent. */
  function HeldView(st: Store): Option<Snapshot> {
    match st.private
    case None => None
    case Some(s) => Some(s.(remaining := None))
  }

  /**
   * The server tells one story: every version has one table and one set of hole cards, and hands follow
   * one another.
   */
  ghost predicate OneStory(events: seq<StoreEvent>) {
    && OneTablePerVersion(events)
    && (forall e, f :: e in events && f in events && Delivers(e) && Delivers(f) && e.snapshot.version <= f.snapshot.version ==>
          e.snapshot.handId <= f.snapshot.handId)
    && (forall e, f :: e in events && f in events && e.Private? && f.Private? && e.snapshot.version == f.snapshot.version ==>
          e.snapshot.holeCards == f.snapshot.holeCards)
  }

  /** A private snapshot of the hand that the newest version belongs to. */
  predicate DealtNewestHand(events: seq<StoreEvent>) {
    exists i, j :: 0 <= i < |events| && 0 <= j < |events| && events[i].Private? && Delivers(events[j])
                   && events[j].snapshot.version == Newest(events) && events[i].snapshot.handId == events[j].snapshot.handId
  }

  /** The same events in some order, each any number of times. */
  ghost predicate SameDelivered(xs: seq<StoreEvent>, ys: seq<StoreEvent>) {
    forall e :: e in xs <==> e in ys
  }

  lemma SameEvents(xs: seq<StoreEvent>, ys: seq<StoreEvent>, matchId: nat)
    requires OneMatch(xs, matchId) && OneStory(xs) && SameDelivered(xs, ys)
    ensures OneMatch(ys, matchId) && OneStory(ys) && Newest(ys) == Newest(xs)
    ensures DealtAtNewest(ys) <==> DealtAtNewest(xs)
    ensures DealtNewestHand(ys) <==> DealtNewestHand(xs)
  {
    NewestSame(xs, ys);
    NewestSame(ys, xs);
    hide Newest;
    forall i | 0 <= i < |ys|
      ensures !ys[i].Reset? && (Delivers(ys[i]) ==> ys[i].snapshot.matchId == matchId)
    {
      assert ys[i] in xs;
    }
    DealtCarries(xs, ys);
    DealtCarries(ys, xs);
  }

  lemma DealtCarries(xs: seq<StoreEvent>, ys: seq<StoreEvent>)
    requires (forall e :: e in xs <==> e in ys) && Newest(xs) == Newest(ys)
    ensures DealtAtNewest(xs) ==> DealtAtNewest(ys)
    ensures DealtNewestHand(xs) ==> DealtNewestHand(ys)
  {
    hide Newest;
    if DealtAtNewest(xs) {
      var i :| 0 <= i < |xs| && xs[i].Private? && xs[i].snapshot.version == Newest(xs);
      assert xs[i] in ys;
    }
    if DealtNewestHand(xs) {
      var i, j :| 0 <= i < |xs| && 0 <= j < |xs| && xs[i].Private? && Delivers(xs[j])
                  && xs[j].snapshot.version == Newest(xs) && xs[i].snapshot.handId == xs[j].snapshot.handId;
      assert xs[i] in ys && xs[j] in ys;
      var k :| 0 <= k < |ys| && ys[k] == xs[i];
      var l :| 0 <= l < |ys| && ys[l] == xs[j];
      assert ys[k].Private? && Delivers(ys[l]);
    }
  }

  /** Two private snapshots of one version are the same but for the time left. */
  lemma SameDealt(events: seq<StoreEvent>, i: nat, j: nat)
    requires OneStory(events) && i < |events| && j < |events| && events[i].Private? && events[j].Private?
    requires events[i].snapshot.version == events[j].snapshot.version
    ensures events[i].snapshot.(remaining := None) == events[j].snapshot.(remaining := None)
  {
    var s, t := events[i].snapshot, events[j].snapshot;
    assert events[i] in events && events[j] in events;
    assert Shared(s) == Shared(t);
    assert Shared(s).(holeCards := s.holeCards) == s.(remaining := None);
    assert Shared(t).(holeCards := t.holeCards) == t.(remaining := None);
  }

  /** If the newest version came with hole cards, every order ends with the hero holding them. */
  lemma PrivateConverges(xs: seq<StoreEvent>, ys: seq<StoreEvent>, matchId: nat)
    requires OneMatch(xs, matchId) && OneStory(xs) && SameDelivered(xs, ys) && DealtAtNewest(xs)
    ensures HeldView(After(xs)).Some? && HeldView(After(xs)) == HeldView(After(ys))
    ensures HeldView(After(xs)).value.version == Newest(xs)
  {
    SameEvents(xs, ys, matchId);
    hide Newest;
    var k := NewestPrivateHeld(xs, matchId);
    var l := NewestPrivateHeld(ys, matchId);
    assert ys[l] in xs;
    var m :| 0 <= m < |xs| && xs[m] == ys[l];
    SameDealt(xs, k, m);
  }

  /** If no private snapshot of the newest hand was delivered, every order ends with none held. */
  lemma NothingHeld(events: seq<StoreEvent>, matchId: nat)
    requires OneMatch(events, matchId) && !DealtNewestHand(events)
    ensures After(events).private == None
  {
    ShowsNewest(events, matchId);
    AlwaysCoherent(events);
    HeldWasDelivered(events);
    hide After, Newest;
  }

  /** Once the newest version is shown without hole cards, nothing older brings any. */
  lemma {:induction false} NewestFirst(events: seq<StoreEvent>, n: nat, matchId: nat)
    requires OneMatch(events, matchId) && !DealtAtNewest(events) && 1 <= n <= |events|
    requires events[0].Public? && events[0].snapshot.version == Newest(events)
    ensures var st := After(events[..n]);
            st.private == None && st.public.Some? && st.public.value.matchId == matchId && VersionOf(st.public) == Newest(events)
  {
    AfterOne(events, n - 1);
    NewestIsMax(events);
    if n > 1 {
      NewestFirst(events, n - 1, matchId);
    } else {
      assert events[..0] == [];
    }
    hide After, Newest;
  }

  /** Cards of the hand are held beside the table, no older than the given version. */
  predicate Holding(st: Store, matchId: nat, handId: nat, version: nat) {
    && st.private.Some? && st.private.value.matchId == matchId && st.private.value.handId == handId
    && st.public.Some? && st.public.value.matchId == matchId
    && version <= VersionOf(st.private)
  }

  lemma HoldingLasts(st: Store, e: StoreEvent, matchId: nat, handId: nat, version: nat)
    requires Holding(st, matchId, handId, version) && !e.Reset?
    requires Delivers(e) ==> e.snapshot.matchId == matchId && (version <= e.snapshot.version ==> e.snapshot.handId == handId)
    ensures Holding(Handle(st, e), matchId, handId, version)
  {
  }

  /** Between a version and the newest one of the same hand there is no other hand. */
  lemma HandBetween(events: seq<StoreEvent>, i: nat, j: nat, newest: nat)
    requires OneStory(events) && i < |events| && j < |events| && newest < |events|
    requires Delivers(events[i]) && Delivers(events[j]) && Delivers(events[newest])
    requires events[newest].snapshot.version == Newest(events)
    requires events[newest].snapshot.handId == events[i].snapshot.handId
    requires events[i].snapshot.version <= events[j].snapshot.version
    ensures events[j].snapshot.handId == events[i].snapshot.handId
  {
    NewestIsMax(events);
    assert events[i] in events && events[j] in events && events[newest] in events;
    hide Newest, OneTablePerVersion;
  }

  /** A private snapshot of the newest hand that comes first is held on to, or replaced by another one. */
  lemma {:induction false} DealtFirst(events: seq<StoreEvent>, n: nat, newest: nat, matchId: nat)
    requires OneMatch(events, matchId) && OneStory(events) && 1 <= n <= |events| && newest < |events|
    requires events[0].Private? && Delivers(events[newest]) && events[newest].snapshot.version == Newest(events)
    requires events[newest].snapshot.handId == events[0].snapshot.handId
    ensures Holding(After(events[..n]), matchId, events[0].snapshot.handId, events[0].snapshot.version)
  {
    AfterOne(events, n - 1);
    if n == 1 {
      assert events[..0] == [];
    } else {
      hide After, Handle, Holding, Newest, OneStory;
      DealtFirst(events, n - 1, newest, matchId);
      var e := events[n - 1];
      if Delivers(e) && events[0].snapshot.version <= e.snapshot.version {
        HandBetween(events, 0, n - 1, newest);
      }
      HoldingLasts(After(events[..n - 1]), e, matchId, events[0].snapshot.handId, events[0].snapshot.version);
    }
  }

  /** However the delivered events are reordered and repeated, the hero is left holding the same. */
  ghost predicate OrderIrrelevant(events: seq<StoreEvent>) {
    forall other: seq<StoreEvent> :: SameDelivered(events, other) ==> HeldView(After(other)) == HeldView(After(events))
  }

  function ToFront(events: seq<StoreEvent>, k: nat): seq<StoreEvent>
    requires k < |events|
  {
    [events[k]] + Without(events, k)
  }

  lemma ToFrontSame(events: seq<StoreEvent>, k: nat)
    requires k < |events|
    ensures multiset(ToFront(events, k)) == multiset(events) && ToFront(events, k)[0] == events[k]
    ensures SameDelivered(events, ToFront(events, k))
  {
    PutBack(events, k);
    assert forall e :: e in events <==> e in multiset(events);
    assert forall e :: e in ToFront(events, k) <==> e in multiset(ToFront(events, k));
  }

  lemma NewestToFront(events: seq<StoreEvent>, j: nat, matchId: nat)
    requires OneMatch(events, matchId) && OneStory(events) && !DealtAtNewest(events)
    requires j < |events| && events[j].Public? && events[j].snapshot.version == Newest(events)
    ensures After(ToFront(events, j)).private == None
  {
    hide After, Newest, OneStory, OneMatch, DealtAtNewest, DealtNewestHand, ToFront;
    var order := ToFront(events, j);
    ToFrontSame(events, j);
    SameEvents(events, order, matchId);
    NewestFirst(order, |order|, matchId);
    assert order[..|order|] == order;
  }

  lemma DealtToFront(events: seq<StoreEvent>, i: nat, j: nat, matchId: nat)
    requires OneMatch(events, matchId) && OneStory(events) && i < |events| && j < |events|
    requires events[i].Private? && Delivers(events[j]) && events[j].snapshot.version == Newest(events)
    requires events[i].snapshot.handId == events[j].snapshot.handId
    ensures After(ToFront(events, i)).private.Some?
  {
    hide After, Newest, OneStory, OneMatch, DealtAtNewest, DealtNewestHand, ToFront;
    var order := ToFront(events, i);
    ToFrontSame(events, i);
    SameEvents(events, order, matchId);
    assert events[j] in order;
    var k :| 0 <= k < |order| && order[k] == events[j];
    DealtFirst(order, |order|, k, matchId);
    assert order[..|order|] == order;
  }

  /** Otherwise one order leaves the hero without hole cards and another with some. */
  lemma TwoOrders(events: seq<StoreEvent>, matchId: nat) returns (without: seq<StoreEvent>, with: seq<StoreEvent>)
    requires OneMatch(events, matchId) && OneStory(events) && DealtNewestHand(events) && !DealtAtNewest(events)
    ensures multiset(without) == multiset(with) == multiset(events)
    ensures SameDelivered(events, without) && SameDelivered(events, with)
    ensures HeldView(After(without)) == None && HeldView(After(with)).Some?
  {
    var i, j :| 0 <= i < |events| && 0 <= j < |events| && events[i].Private? && Delivers(events[j])
                && events[j].snapshot.version == Newest(events) && events[i].snapshot.handId == events[j].snapshot.handId;
    assert events[j].Public?;
    hide After, Newest, OneStory, OneMatch, DealtAtNewest, DealtNewestHand, ToFront;
    without, with := ToFront(events, j), ToFront(events, i);
    ToFrontSame(events, j);
    ToFrontSame(events, i);
    NewestToFront(events, j, matchId);
    DealtToFront(events, i, j, matchId);
  }

  /**
   * The order of arrival does not matter for the hole cards held exactly when a private snapshot of the
   * newest version was delivered, or none of the newest hand at all.
   */
  lemma PrivateOrderIff(events: seq<StoreEvent>, matchId: nat)
    requires OneMatch(events, matchId) && OneStory(events)
    ensures OrderIrrelevant(events) <==> DealtAtNewest(events) || !DealtNewestHand(events)
  {
    hide After, Newest, OneStory, OneMatch, DealtAtNewest, DealtNewestHand;
    if DealtAtNewest(events) || !DealtNewestHand(events) {
      forall other: seq<StoreEvent> | SameDelivered(events, other)
        ensures HeldView(After(other)) == HeldView(After(events))
      {
        SameEvents(events, other, matchId);
        if DealtAtNewest(events) {
          PrivateConverges(events, other, matchId);
        } else {
          NothingHeld(events, matchId);
          NothingHeld(other, matchId);
        }
      }
    } else {
      var without, with := TwoOrders(events, matchId);
      assert HeldView(After(without)) != HeldView(After(with));
    }
  }

  /** Otherwise it may not: the same two snapshots of one hand leave the hero with or without hole cards. */
  lemma PrivateDependsOnOrder(dealt: Snapshot, later: Snapshot)
    requires dealt.matchId == later.matchId && dealt.handId == later.handId && dealt.version < later.version
    ensures After([Private(dealt), Public(later)]).private == Some(dealt)
    ensures After([Public(later), Private(dealt)]).private == None
  {
    assert After([]) == BLANK;
    assert [Private(dealt)][..0] == [] && [Public(later)][..0] == [];
    assert [Private(dealt), Public(later)][..1] == [Private(dealt)];
    assert [Public(later), Private(dealt)][..1] == [Public(later)];
  }

  // ---------------------------------------------------------------------------------------------
  // Pending actions
  // ---------------------------------------------------------------------------------------------

  /** The k-th event ends the wait: a rejection, a reset, or taking a snapshot of the match that is newer. */
  predicate Releases(events: seq<StoreEvent>, k: nat, p: PendingAction)
    requires k < |events|
  {
    var e := events[k];
    || e.Rejected? || e.Reset?
    || (Delivers(e) && !Stale(After(events[..k]), e.snapshot) && e.snapshot.matchId == p.matchId && e.snapshot.version > p.version)
  }

  lemma PendingStep(events: seq<StoreEvent>, k: nat, p: PendingAction)
    requires k < |events| && After(events[..k]).pending == Some(p)
    ensures After(events[..k + 1]).pending == if Releases(events, k, p) then None else Some(p)
  {
    AfterOne(events, k);
    hide After;
  }

  /**
   * A submitted action stays pending exactly until the first such event: nothing else clears it, and no
   * second submission replaces it.
   */
  lemma {:induction false} PendingUntilReleased(events: seq<StoreEvent>, i: nat, j: nat, p: PendingAction)
    requires i <= j <= |events| && After(events[..i]).pending == Some(p)
    ensures (forall k :: i <= k <= j ==> After(events[..k]).pending == Some(p)) <==>
            (forall k :: i <= k < j ==> !Releases(events, k, p))
    decreases j
  {
    hide After, Releases;
    if i < j {
      PendingUntilReleased(events, i, j - 1, p);
      if After(events[..j - 1]).pending == Some(p) {
        PendingStep(events, j - 1, p);
      }
    }
  }

  /** The k-th event submits the action while none is pending. */
  predicate Starts(events: seq<StoreEvent>, k: nat, p: PendingAction)
    requires k < |events|
  {
    events[k] == Submitted(p) && After(events[..k]).pending == None
  }

  lemma PendingAt(events: seq<StoreEvent>, k: nat, p: PendingAction)
    requires k < |events|
    ensures After(events[..k + 1]).pending == Some(p) <==>
            Starts(events, k, p) || (After(events[..k]).pending == Some(p) && !Releases(events, k, p))
  {
    AfterOne(events, k);
    hide After;
  }

  /** So an action is pending exactly when it was submitted while none was, and nothing released it since. */
  lemma {:induction false} PendingIff(events: seq<StoreEvent>, j: nat, p: PendingAction)
    requires j <= |events|
    ensures After(events[..j]).pending == Some(p) <==>
            exists i :: 0 <= i < j && Starts(events, i, p) && forall k :: i < k < j ==> !Releases(events, k, p)
  {
    if j == 0 {
      assert events[..0] == [];
    } else {
      hide After, Starts, Releases;
      PendingIff(events, j - 1, p);
      PendingAt(events, j - 1, p);
    }
  }

  // ---------------------------------------------------------------------------------------------
  // Hand results
  // ---------------------------------------------------------------------------------------------

  /** The k-th event leaves a displayed hand result alone. */
  predicate KeepsResult(events: seq<StoreEvent>, k: nat, r: HandResult)
    requires k < |events|
  {
    match events[k]
    case HandSettled(other) => other == r
    case ResultExpired(expired) => expired != r
    case Reset => false
    case Rejected => true
    case Submitted(_) => true
    case Public(s) => Stale(After(events[..k]), s) || s.matchId == r.matchId
    case Private(s) => Stale(After(events[..k]), s) || s.matchId == r.matchId
  }

  lemma ResultStep(events: seq<StoreEvent>, k: nat, r: HandResult)
    requires k < |events|
    ensures After(events[..k + 1]).handSettled == Some(r) <==>
            events[k] == HandSettled(r) || (After(events[..k]).handSettled == Some(r) && KeepsResult(events, k, r))
  {
    AfterOne(events, k);
    hide After;
  }

  /**
   * A hand result is on display exactly when it was announced and since then it has not expired, no other was
   * announced, nothing was reset, and no snapshot of another match has been taken.
   */
  lemma {:induction false} ResultOnDisplay(events: seq<StoreEvent>, j: nat, r: HandResult)
    requires j <= |events|
    ensures After(events[..j]).handSettled == Some(r) <==>
            exists i :: 0 <= i < j && events[i] == HandSettled(r) && forall k :: i < k < j ==> KeepsResult(events, k, r)
  {
    if j == 0 {
      assert events[..0] == [];
    } else {
      hide After, KeepsResult;
      ResultOnDisplay(events, j - 1, r);
      ResultStep(events, j - 1, r);
    }
  }
}
