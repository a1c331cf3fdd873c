/** Counters kept up to date hand by hand, against the same counters rebuilt from history. */
module LiveStatistics {
  import opened Prelude
  import opened PokerHand
  import opened MatchState
  import opened ActorState
  import opened StatisticsReducer
  import opened StatisticsAlgebra
  import opened HandRecords

  /** What the running server adds: one hand when it ends, one outcome per player when a match ends. */
  datatype Addition = HandPlayed(hand: StatisticsHand) | MatchFinished(profitable: map<AccountId, bool>)

  predicate Accepted(e: Addition) {
    e.HandPlayed? ==> ReducedHand(e.hand).Ok?
  }

  predicate AllAccepted(events: seq<Addition>) {
    forall i :: 0 <= i < |events| ==> Accepted(events[i])
  }

  function Added(e: Addition): Totals
    requires Accepted(e)
  {
    match e
    case HandPlayed(hand) => ReducedHand(hand).value
    case MatchFinished(profitable) => OutcomeDeltas(profitable)
  }

  function AddedAll(events: seq<Addition>): (ds: seq<Totals>)
    requires AllAccepted(events)
    ensures |ds| == |events|
    ensures forall i :: 0 <= i < |events| ==> ds[i] == Added(events[i])
  {
    if events == [] then [] else AddedAll(events[..|events| - 1]) + [Added(events[|events| - 1])]
  }

  function LiveTotals(events: seq<Addition>): Totals
    requires AllAccepted(events)
  {
    Total(AddedAll(events))
  }

  // ---------------------------------------------------------------------------------------------
  // Order of the live additions
  // ---------------------------------------------------------------------------------------------

  lemma AcceptedWithout(events: seq<Addition>, k: nat)
    requires AllAccepted(events) && k < |events|
    ensures AllAccepted(Without(events, k)) && |Without(events, k)| == |events| - 1
  {
    hide Accepted;
    forall i | 0 <= i < |events| - 1 ensures Accepted(Without(events, k)[i]) {
      WithoutAt(events, k, i);
    }
  }

  lemma AddedWithout(events: seq<Addition>, k: nat)
    requires AllAccepted(events) && k < |events|
    ensures AllAccepted(Without(events, k))
    ensures AddedAll(Without(events, k)) == Without(AddedAll(events), k)
  {
    AcceptedWithout(events, k);
    var rest, ds := Without(events, k), AddedAll(events);
    assert |rest| == |Without(ds, k)|;
    hide Accepted, Added, Without, AddedAll;
    forall i | 0 <= i < |rest| ensures AddedAll(rest)[i] == Without(ds, k)[i] {
      WithoutAt(events, k, i);
      WithoutAt(ds, k, i);
    }
  }

  lemma {:induction false} AddedPermutes(xs: seq<Addition>, ys: seq<Addition>)
    requires multiset(xs) == multiset(ys) && AllAccepted(xs)
    ensures AllAccepted(ys) && multiset(AddedAll(xs)) == multiset(AddedAll(ys))
    decreases |xs|
  {
    AcceptedPermutes(xs, ys);
    if xs == [] {
      assert |multiset(ys)| == 0;
    } else {
      var n := |xs| - 1;
      var k := TakeLast(xs, ys);
      AddedWithout(xs, n);
      AddedWithout(ys, k);
      assert Without(xs, n) == xs[..n];
      hide Accepted, Added, Without;
      AddedPermutes(xs[..n], Without(ys, k));
      PutBack(AddedAll(xs), n);
      PutBack(AddedAll(ys), k);
    }
  }

  lemma AcceptedPermutes(xs: seq<Addition>, ys: seq<Addition>)
    requires multiset(xs) == multiset(ys) && AllAccepted(xs)
    ensures AllAccepted(ys)
  {
    forall i | 0 <= i < |ys| ensures Accepted(ys[i]) {
      assert ys[i] in multiset(xs);
    }
  }

  /** Hands and match ends of different matches may interleave in any way. */
  lemma InterleavingIrrelevant(xs: seq<Addition>, ys: seq<Addition>)
    requires multiset(xs) == multiset(ys) && AllAccepted(xs)
    ensures AllAccepted(ys) && LiveTotals(xs) == LiveTotals(ys)
  {
    AddedPermutes(xs, ys);
    TotalPermutes(AddedAll(xs), AddedAll(ys));
  }

  // ---------------------------------------------------------------------------------------------
  // A played match on both sides
  // ---------------------------------------------------------------------------------------------

  /** A completed match: who sat where, with what they began and ended, and its hands in order. */
  datatype PlayedMatch = PlayedMatch(
    matchId: nat, seats: seq<AccountId>, startingChips: int, finals: map<AccountId, int>, hands: seq<CompletedHand>)

  /** The hand was dealt to seated players, its button among them, and reduces without error. */
  predicate GoodHand(matchId: nat, seats: seq<AccountId>, c: CompletedHand) {
    && SeatedHand(c, seats)
    && c.buttonAccountId in c.public.accountIds
    && LiveHand(matchId, c).Ok? && ReducedHand(LiveHand(matchId, c).value).Ok?
  }

  predicate GoodHands(matchId: nat, seats: seq<AccountId>, hands: seq<CompletedHand>) {
    forall i :: 0 <= i < |hands| ==> GoodHand(matchId, seats, hands[i])
  }

  predicate WellPlayed(m: PlayedMatch) {
    && (forall a :: a in m.seats ==> a in m.finals)
    && GoodHands(m.matchId, m.seats, m.hands)
  }

  function Outcome(final: int, initial: int): MatchOutcome {
    if final > initial then Profit else if final < initial then Loss else Tie
  }

  function LiveOf(matchId: nat, seats: seq<AccountId>, c: CompletedHand): StatisticsHand
    requires GoodHand(matchId, seats, c)
  {
    LiveHand(matchId, c).value
  }

  function StoredOf(matchId: nat, seats: seq<AccountId>, c: CompletedHand): StatisticsHand
    requires GoodHand(matchId, seats, c)
  {
    PathsAgree(matchId, c, seats);
    StoredHand(HandHistory(matchId, c), seats).value
  }

  function LiveHands(matchId: nat, seats: seq<AccountId>, hands: seq<CompletedHand>): (r: seq<Addition>)
    requires GoodHands(matchId, seats, hands)
    ensures |r| == |hands|
  {
    seq(|hands|, i requires 0 <= i < |hands| => HandPlayed(LiveOf(matchId, seats, hands[i])))
  }

  function LiveEvents(m: PlayedMatch): seq<Addition>
    requires WellPlayed(m)
  {
    LiveHands(m.matchId, m.seats, m.hands)
    + [MatchFinished(map a | a in m.seats :: m.finals[a] > m.startingChips)]
  }

  function StoredHands(matchId: nat, seats: seq<AccountId>, hands: seq<CompletedHand>): (r: seq<StatisticsHand>)
    requires GoodHands(matchId, seats, hands)
    ensures |r| == |hands|
  {
    seq(|hands|, i requires 0 <= i < |hands| => StoredOf(matchId, seats, hands[i]))
  }

  function StoredMatch(m: PlayedMatch): StatisticsMatch
    requires WellPlayed(m)
  {
    StatisticsMatch(m.matchId, StoredHands(m.matchId, m.seats, m.hands),
                    map a | a in m.seats :: Outcome(m.finals[a], m.startingChips))
  }

  predicate AllWellPlayed(history: seq<PlayedMatch>) {
    forall i :: 0 <= i < |history| ==> WellPlayed(history[i])
  }

  function AllEvents(history: seq<PlayedMatch>): seq<Addition>
    requires AllWellPlayed(history)
  {
    if history == [] then []
    else AllEvents(history[..|history| - 1]) + LiveEvents(history[|history| - 1])
  }

  function StoredMatches(history: seq<PlayedMatch>): (r: seq<StatisticsMatch>)
    requires AllWellPlayed(history)
    ensures |r| == |history|
  {
    if history == [] then []
    else StoredMatches(history[..|history| - 1]) + [StoredMatch(history[|history| - 1])]
  }

  // ---------------------------------------------------------------------------------------------
  // Forgetting positions
  // ---------------------------------------------------------------------------------------------

  function Unplaced(s: PlayerStatistics): PlayerStatistics {
    s.(positionCounts := map[])
  }

  /** All counters except the positions. */
  function Counters(t: Totals): Totals {
    map a | a in t :: Unplaced(t[a])
  }

  lemma CountersMerge(x: Totals, y: Totals)
    ensures Counters(MergeAll(x, y)) == MergeAll(Counters(x), Counters(y))
  {
    hide Merge;
    forall a | a in x && a in y ensures Unplaced(Merge(x[a], y[a])) == Merge(Unplaced(x[a]), Unplaced(y[a])) {
      UnplacedMerge(x[a], y[a]);
    }
  }

  lemma UnplacedMerge(x: PlayerStatistics, y: PlayerStatistics)
    ensures Unplaced(Merge(x, y)) == Merge(Unplaced(x), Unplaced(y))
  {
    assert AddPositions(map[], map[]) == map[];
  }

  lemma {:induction false} SamePlayersReduce(h: StatisticsHand, g: StatisticsHand, n: nat)
    requires SameButPositions(h, g) && n <= |h.players|
    ensures Counters(DeltasOf(h, h.players[..n])) == Counters(DeltasOf(g, g.players[..n]))
  {
    if n > 0 {
      SamePlayersReduce(h, g, n - 1);
      assert h.players[..n][..n - 1] == h.players[..n - 1] && g.players[..n][..n - 1] == g.players[..n - 1];
      var p, q := h.players[n - 1], g.players[n - 1];
      assert WithoutPosition(p) == WithoutPosition(q);
      assert p.accountId == q.accountId;
      SameDelta(h, g, p, q);
      hide HandDelta, SameButPositions;
      CountersAt(DeltasOf(h, h.players[..n - 1]), p.accountId, HandDelta(h, p));
      CountersAt(DeltasOf(g, g.players[..n - 1]), q.accountId, HandDelta(g, q));
    }
  }

  lemma SameDelta(h: StatisticsHand, g: StatisticsHand, p: StatisticsPlayer, q: StatisticsPlayer)
    requires SameButPositions(h, g) && WithoutPosition(p) == WithoutPosition(q)
    ensures Unplaced(HandDelta(h, p)) == Unplaced(HandDelta(g, q))
  {
    hide Acted, FacedRaise, ThreeBet, Raised, Volunteered, Decisions, Folds;
    assert p.accountId == WithoutPosition(p).accountId == q.accountId;
    assert p.folded == WithoutPosition(p).folded == q.folded;
    assert p.allIn == WithoutPosition(p).allIn == q.allIn;
    assert p.wonChips == WithoutPosition(p).wonChips == q.wonChips;
    assert p.showdown == WithoutPosition(p).showdown == q.showdown;
  }

  lemma CountersAt(t: Totals, a: AccountId, d: PlayerStatistics)
    ensures Counters(t[a := d]) == Counters(t)[a := Unplaced(d)]
  {
  }

  /** A hand and its stored form are accepted or refused together, and move the same counters. */
  lemma SameHandReduces(h: StatisticsHand, g: StatisticsHand)
    requires SameButPositions(h, g)
    ensures ReducedHand(h).Ok? <==> ReducedHand(g).Ok?
    ensures ReducedHand(h).Ok? ==> Counters(ReducedHand(h).value) == Counters(ReducedHand(g).value)
  {
    forall i | 0 <= i < |h.players| ensures h.players[i].accountId == g.players[i].accountId {
      assert WithoutPosition(h.players[i]) == WithoutPosition(g.players[i]);
    }
    KnownTogether(h, g);
    KnownTogether(g, h);
    SamePlayersReduce(h, g, |h.players|);
    assert h.players[..|h.players|] == h.players && g.players[..|g.players|] == g.players;
    hide DeltasOf, Counters, KnownPlayers;
  }

  lemma KnownTogether(h: StatisticsHand, g: StatisticsHand)
    requires h.actions == g.actions && |h.players| == |g.players|
    requires forall i :: 0 <= i < |h.players| ==> h.players[i].accountId == g.players[i].accountId
    ensures KnownPlayers(h) ==> KnownPlayers(g)
  {
    forall a | Among(h.players, a) ensures Among(g.players, a) {
      var j :| 0 <= j < |h.players| && h.players[j].accountId == a;
      assert g.players[j].accountId == a;
    }
  }
}
