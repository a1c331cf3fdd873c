/** When live counting and rebuilding from history come to the same totals, positions included. */
module LiveAgreement {
  import opened Prelude
  import opened PokerHand
  import opened MatchState
  import opened ActorState
  import opened StatisticsReducer
  import opened StatisticsAlgebra
  import opened PositionNames
  import opened HandRecords
  import opened LiveStatistics

  // ---------------------------------------------------------------------------------------------
  // Distances add up
  // ---------------------------------------------------------------------------------------------

  function SeatDistance(m: Positions, n: nat): int {
    if n == 0 then 0 else SeatDistance(m, n - 1) + (n + 1) * CountAt(m, InSeat(n - 1))
  }

  /** The distances of all counted positions together, around a table of at most n seats. */
  function TotalDistance(m: Positions, n: nat): int {
    CountAt(m, OnBigBlind) + SeatDistance(m, n)
  }

  lemma {:induction false} SeatDistanceAdds(x: Positions, y: Positions, n: nat)
    ensures SeatDistance(AddPositions(x, y), n) == SeatDistance(x, n) + SeatDistance(y, n)
  {
    if n > 0 {
      SeatDistanceAdds(x, y, n - 1);
      CountsAdd(x, y, InSeat(n - 1));
      Distributes(n + 1, CountAt(x, InSeat(n - 1)), CountAt(y, InSeat(n - 1)));
    }
  }

  lemma Distributes(k: int, a: int, b: int)
    ensures k * (a + b) == k * a + k * b
  {
  }

  lemma CountsAdd(x: Positions, y: Positions, p: Position)
    ensures CountAt(AddPositions(x, y), p) == CountAt(x, p) + CountAt(y, p)
  {
  }

  lemma {:induction false} SeatDistanceOne(p: Position, n: nat)
    ensures SeatDistance(map[p := 1], n) == if p.InSeat? && p.index < n then Distance(p) else 0
  {
    if n > 0 {
      SeatDistanceOne(p, n - 1);
      assert CountAt(map[p := 1], InSeat(n - 1)) == if p == InSeat(n - 1) then 1 else 0;
    }
  }

  lemma DistanceOne(p: Position, n: nat)
    requires p.InSeat? ==> p.index < n
    ensures TotalDistance(map[p := 1], n) == Distance(p)
  {
    SeatDistanceOne(p, n);
  }

  function Placed(t: Totals, a: AccountId, n: nat): int {
    if a in t then TotalDistance(t[a].positionCounts, n) else 0
  }

  lemma PlacedMerge(x: Totals, y: Totals, a: AccountId, n: nat)
    ensures Placed(MergeAll(x, y), a, n) == Placed(x, a, n) + Placed(y, a, n)
  {
    hide AddPositions, SeatDistance;
    if a in x && a in y {
      var p, q := x[a].positionCounts, y[a].positionCounts;
      SeatDistanceAdds(p, q, n);
      CountsAdd(p, q, OnBigBlind);
    }
  }

  lemma {:induction false} PlacedByHand(hand: StatisticsHand, players: seq<StatisticsPlayer>, j: nat, n: nat)
    requires UniquePlayers(players) && j < |players|
    requires players[j].position.InSeat? ==> players[j].position.index < n
    ensures Placed(DeltasOf(hand, players), players[j].accountId, n) == Distance(players[j].position)
  {
    hide Acted, FacedRaise, ThreeBet, Raised, Volunteered, Decisions, Folds, TotalDistance;
    var last := |players| - 1;
    if j == last {
      DistanceOne(players[j].position, n);
    } else {
      PlacedByHand(hand, players[..last], j, n);
    }
  }

  lemma {:induction false} PlayersCounted(hand: StatisticsHand, players: seq<StatisticsPlayer>, a: AccountId)
    ensures a in DeltasOf(hand, players) <==> Among(players, a)
  {
    if players != [] {
      var n := |players| - 1;
      PlayersCounted(hand, players[..n], a);
      assert players == players[..n] + [players[n]];
    }
  }

  // ---------------------------------------------------------------------------------------------
  // Two totals that differ in positions at most, and then visibly
  // ---------------------------------------------------------------------------------------------

  /** One player's positions are together closer to the button in x than in y. */
  predicate Closer(x: Totals, y: Totals, n: nat, a: AccountId) {
    Placed(x, a, n) < Placed(y, a, n)
  }

  /** The same counters, nobody further from the button in x than in y, and somebody closer unless `same`. */
  ghost predicate Alike(x: Totals, y: Totals, n: nat, same: bool) {
    && Counters(x) == Counters(y)
    && (forall a :: !Closer(y, x, n, a))
    && if same then x == y else exists a :: Closer(x, y, n, a)
  }

  lemma AlikeDecides(x: Totals, y: Totals, n: nat, same: bool)
    requires Alike(x, y, n, same)
    ensures Counters(x) == Counters(y) && (x == y <==> same)
  {
    hide Placed, Counters;
  }

  lemma AlikeSame(x: Totals, n: nat)
    ensures Alike(x, x, n, true)
  {
    hide Placed, Counters;
  }

  lemma AlikeMerge(x: Totals, y: Totals, same: bool, xt: Totals, yt: Totals, sameToo: bool, n: nat)
    requires Alike(x, y, n, same) && Alike(xt, yt, n, sameToo)
    ensures Alike(MergeAll(x, xt), MergeAll(y, yt), n, same && sameToo)
  {
    hide Placed, Counters, MergeAll;
    CountersMerge(x, xt);
    CountersMerge(y, yt);
    forall a
      ensures Placed(MergeAll(x, xt), a, n) == Placed(x, a, n) + Placed(xt, a, n)
      ensures Placed(MergeAll(y, yt), a, n) == Placed(y, a, n) + Placed(yt, a, n)
      ensures !Closer(MergeAll(y, yt), MergeAll(x, xt), n, a)
      ensures Closer(x, y, n, a) || Closer(xt, yt, n, a) ==> Closer(MergeAll(x, xt), MergeAll(y, yt), n, a)
    {
      PlacedMerge(x, xt, a, n);
      PlacedMerge(y, yt, a, n);
      assert !Closer(y, x, n, a) && !Closer(yt, xt, n, a);
    }
    if !same {
      var a :| Closer(x, y, n, a);
      assert Closer(MergeAll(x, xt), MergeAll(y, yt), n, a);
    } else if !sameToo {
      var a :| Closer(xt, yt, n, a);
      assert Closer(MergeAll(x, xt), MergeAll(y, yt), n, a);
    }
  }

  // ---------------------------------------------------------------------------------------------
  // A hand, a match, a history on both sides
  // ---------------------------------------------------------------------------------------------

  lemma StoredMatchId(matchId: nat, c: CompletedHand, seats: seq<AccountId>)
    requires WellShaped(c) && StoredHand(HandHistory(matchId, c), seats).Ok?
    ensures StoredHand(HandHistory(matchId, c), seats).value.matchId == matchId
  {
    hide PlayerIndex, Sum;
  }

  /** Each player of the hand stands live where storage says, or closer to the button. */
  lemma PlacedOnBothSides(matchId: nat, seats: seq<AccountId>, c: CompletedHand, i: nat, n: nat)
    requires GoodHand(matchId, seats, c) && |seats| <= n && i < |c.public.accountIds|
    ensures var live, stored := LiveOf(matchId, seats, c), StoredOf(matchId, seats, c);
            && ReducedHand(live).Ok? && ReducedHand(stored).Ok? && |live.players| == |stored.players| == |c.public.accountIds|
            && live.players[i].accountId == stored.players[i].accountId
            && var a := live.players[i].accountId;
            && !Closer(ReducedHand(stored).value, ReducedHand(live).value, n, a)
            && (live.players[i].position != stored.players[i].position <==>
                  Closer(ReducedHand(live).value, ReducedHand(stored).value, n, a))
  {
    PathsAgree(matchId, c, seats);
    ConvertedNames(matchId, c, seats, i);
    var live, stored := LiveHand(matchId, c).value, StoredHand(HandHistory(matchId, c), seats).value;
    SameHandReduces(live, stored);
    var dealt, p := Places(c.public.accountIds, seats), PlayerIndex(c.public.accountIds, c.buttonAccountId).value;
    LiveNameCloser(dealt, |seats|, p, i);
    hide LiveHand, StoredHand, HandHistory, PlayerIndex, DeltasOf, LiveName, StoredName, Rising, KnownPlayers;
    PlacedByHand(live, live.players, i, n);
    PlacedByHand(stored, stored.players, i, n);
  }

  lemma HandAlike(matchId: nat, seats: seq<AccountId>, c: CompletedHand, n: nat)
    requires GoodHand(matchId, seats, c) && |seats| <= n
    ensures var live, stored := LiveOf(matchId, seats, c), StoredOf(matchId, seats, c);
            && stored.matchId == matchId && ReducedHand(live).Ok? && ReducedHand(stored).Ok?
            && Alike(ReducedHand(live).value, ReducedHand(stored).value, n, SeatNamesKept(c, seats))
  {
    hide LiveHand, StoredHand, HandHistory, SeatNamesKept, Closer, ReducedHand, Counters, SeatedHand, SameButPositions;
    GoodSeats(matchId, seats, c);
    PathsAgree(matchId, c, seats);
    StoredMatchId(matchId, c, seats);
    SameHandIff(matchId, c, seats);
    var live, stored := LiveHand(matchId, c).value, StoredHand(HandHistory(matchId, c), seats).value;
    SameHandReduces(live, stored);
    var x, y := ReducedHand(live).value, ReducedHand(stored).value;
    forall a ensures !Closer(y, x, n, a) {
      NotFurther(matchId, seats, c, n, a);
    }
    if live != stored {
      DifferentNames(live, stored);
      var i :| 0 <= i < |live.players| && live.players[i].position != stored.players[i].position;
      PlacedOnBothSides(matchId, seats, c, i, n);
    }
  }

  lemma GoodSeats(matchId: nat, seats: seq<AccountId>, c: CompletedHand)
    requires GoodHand(matchId, seats, c)
    ensures SeatedHand(c, seats) && WellShaped(c)
    ensures |LiveOf(matchId, seats, c).players| == |StoredOf(matchId, seats, c).players| == |c.public.accountIds|
  {
    PathsAgree(matchId, c, seats);
    hide PlayerIndex, Sum, PotAmounts, Rising;
  }

  lemma DifferentNames(h: StatisticsHand, g: StatisticsHand)
    requires SameButPositions(h, g) && h != g
    ensures exists i :: 0 <= i < |h.players| && h.players[i].position != g.players[i].position
  {
    forall i | 0 <= i < |h.players|
      ensures h.players[i] == g.players[i] <==> h.players[i].position == g.players[i].position
    {
      SamePlayer(h.players[i], g.players[i]);
    }
    assert h == g <==> h.players == g.players;
  }

  lemma NotFurther(matchId: nat, seats: seq<AccountId>, c: CompletedHand, n: nat, a: AccountId)
    requires GoodHand(matchId, seats, c) && |seats| <= n
    ensures var live, stored := LiveOf(matchId, seats, c), StoredOf(matchId, seats, c);
            && ReducedHand(live).Ok? && ReducedHand(stored).Ok?
            && !Closer(ReducedHand(stored).value, ReducedHand(live).value, n, a)
  {
    PathsAgree(matchId, c, seats);
    var live, stored := LiveOf(matchId, seats, c), StoredOf(matchId, seats, c);
    SameHandReduces(live, stored);
    if Among(live.players, a) {
      var i :| 0 <= i < |live.players| && live.players[i].accountId == a;
      ConvertedNames(matchId, c, seats, i);
      PlacedOnBothSides(matchId, seats, c, i, n);
    } else {
      hide LiveHand, StoredHand, HandHistory, DeltasOf, SeatDistance;
      PlayersCounted(live, live.players, a);
      OtherPlayers(live, stored, a);
      PlayersCounted(stored, stored.players, a);
    }
  }

  lemma OtherPlayers(h: StatisticsHand, g: StatisticsHand, a: AccountId)
    requires SameButPositions(h, g) && !Among(h.players, a)
    ensures !Among(g.players, a)
  {
    forall i | 0 <= i < |g.players| ensures g.players[i].accountId != a {
      assert WithoutPosition(h.players[i]).accountId == WithoutPosition(g.players[i]).accountId;
    }
  }

  predicate HandsKeepNames(matchId: nat, seats: seq<AccountId>, hands: seq<CompletedHand>)
    requires GoodHands(matchId, seats, hands)
  {
    forall i :: 0 <= i < |hands| ==> GoodHand(matchId, seats, hands[i]) && SeatNamesKept(hands[i], seats)
  }

  /** In every hand of the history the seats that give positions their names were dealt in. */
  predicate AllNamesKept(history: seq<PlayedMatch>)
    requires AllWellPlayed(history)
  {
    forall i :: 0 <= i < |history| ==>
      WellPlayed(history[i]) && HandsKeepNames(history[i].matchId, history[i].seats, history[i].hands)
  }

  lemma LiveStep(events: seq<Addition>)
    requires AllAccepted(events) && events != []
    ensures var n := |events| - 1; LiveTotals(events) == MergeAll(LiveTotals(events[..n]), Added(events[n]))
  {
    var n := |events| - 1;
    hide Accepted, Added, MergeAll;
    assert AddedAll(events)[..n] == AddedAll(events[..n]);
  }

  lemma {:induction false} AddedAppend(xs: seq<Addition>, ys: seq<Addition>)
    requires AllAccepted(xs) && AllAccepted(ys)
    ensures AllAccepted(xs + ys) && AddedAll(xs + ys) == AddedAll(xs) + AddedAll(ys)
  {
    hide Accepted, Added;
    assert forall i :: 0 <= i < |xs + ys| ==> (xs + ys)[i] == if i < |xs| then xs[i] else ys[i - |xs|];
  }

  lemma LiveAppend(xs: seq<Addition>, ys: seq<Addition>)
    requires AllAccepted(xs) && AllAccepted(ys)
    ensures AllAccepted(xs + ys) && LiveTotals(xs + ys) == MergeAll(LiveTotals(xs), LiveTotals(ys))
  {
    hide Accepted, Added, MergeAll, AddedAll, AllAccepted;
    AddedAppend(xs, ys);
    TotalAppend(AddedAll(xs), AddedAll(ys));
  }

  lemma StoredHandStep(hands: seq<StatisticsHand>)
    requires hands != [] && forall i :: 0 <= i < |hands| ==> ReducedHand(hands[i]).Ok?
    ensures var n := |hands| - 1;
            Total(HandAdditions(hands)) == MergeAll(Total(HandAdditions(hands[..n])), ReducedHand(hands[n]).value)
  {
    hide ReducedHand, MergeAll;
    var n := |hands| - 1;
    assert HandAdditions(hands)[..n] == HandAdditions(hands[..n]);
  }

  lemma HandsPrefix(matchId: nat, seats: seq<AccountId>, hands: seq<CompletedHand>)
    requires GoodHands(matchId, seats, hands) && hands != []
    ensures var n := |hands| - 1;
            && GoodHands(matchId, seats, hands[..n]) && GoodHand(matchId, seats, hands[n]) && SeatedHand(hands[n], seats)
            && LiveHands(matchId, seats, hands)[..n] == LiveHands(matchId, seats, hands[..n])
            && StoredHands(matchId, seats, hands)[..n] == StoredHands(matchId, seats, hands[..n])
            && LiveHands(matchId, seats, hands)[n] == HandPlayed(LiveOf(matchId, seats, hands[n]))
            && StoredHands(matchId, seats, hands)[n] == StoredOf(matchId, seats, hands[n])
            && (HandsKeepNames(matchId, seats, hands) <==>
                  HandsKeepNames(matchId, seats, hands[..n]) && SeatNamesKept(hands[n], seats))
  {
    hide GoodHand, LiveOf, StoredOf, SeatNamesKept, SeatedHand;
    GoodIsSeated(matchId, seats, hands);
  }

  lemma GoodIsSeated(matchId: nat, seats: seq<AccountId>, hands: seq<CompletedHand>)
    requires GoodHands(matchId, seats, hands)
    ensures forall i :: 0 <= i < |hands| ==> SeatedHand(hands[i], seats)
  {
  }

  lemma {:induction false} HandsAlike(matchId: nat, seats: seq<AccountId>, hands: seq<CompletedHand>, n: nat)
    requires GoodHands(matchId, seats, hands) && |seats| <= n
    ensures var live, stored := LiveHands(matchId, seats, hands), StoredHands(matchId, seats, hands);
            && AllAccepted(live) && HandsReducible(matchId, stored)
            && Alike(LiveTotals(live), Total(HandAdditions(stored)), n, HandsKeepNames(matchId, seats, hands))
  {
    hide ReducedHand, MergeAll, Alike, GoodHand, LiveOf, StoredOf, SeatNamesKept, SeatedHand;
    if hands == [] {
      AlikeSame(map[], n);
    } else {
      var k := |hands| - 1;
      HandsPrefix(matchId, seats, hands);
      hide LiveHands, StoredHands, GoodHands, HandsKeepNames;
      HandsAlike(matchId, seats, hands[..k], n);
      HandAlike(matchId, seats, hands[k], n);
      var live, stored := LiveHands(matchId, seats, hands), StoredHands(matchId, seats, hands);
      assert AllAccepted(live) by {
        assert live == live[..k] + [live[k]];
      }
      HandsReducibleOne(matchId, stored);
      LiveStep(live);
      StoredHandStep(stored);
      AlikeMerge(LiveTotals(live[..k]), Total(HandAdditions(stored[..k])), HandsKeepNames(matchId, seats, hands[..k]),
                 Added(live[k]), ReducedHand(stored[k]).value, SeatNamesKept(hands[k], seats), n);
    }
  }

  lemma AddedOne(e: Addition)
    requires Accepted(e)
    ensures AllAccepted([e]) && AddedAll([e]) == [Added(e)]
  {
  }

  lemma OutcomesMatch(m: PlayedMatch)
    requires WellPlayed(m)
    ensures (map a | a in m.seats :: m.finals[a] > m.startingChips) == Profits(StoredMatch(m).results)
  {
    hide GoodHands;
    var left, right := map a | a in m.seats :: m.finals[a] > m.startingChips, Profits(StoredMatch(m).results);
    assert forall a :: a in left <==> a in right;
    assert forall a :: a in left ==> left[a] == right[a];
  }

  lemma MatchAlike(m: PlayedMatch, n: nat)
    requires WellPlayed(m) && |m.seats| <= n
    ensures AllAccepted(LiveEvents(m)) && Reducible(StoredMatch(m))
    ensures Alike(LiveTotals(LiveEvents(m)), Total(MatchAdditions(StoredMatch(m))), n,
                  HandsKeepNames(m.matchId, m.seats, m.hands))
  {
    HandsAlike(m.matchId, m.seats, m.hands, n);
    OutcomesMatch(m);
    hide LiveHands, StoredHands, GoodHands, Counters, OutcomeDeltas, Profits, ReducedHand, Alike, HandAdditions, AddedAll;
    hide MergeAll, HandsKeepNames, HandsReducible;
    var end := MatchFinished(map a | a in m.seats :: m.finals[a] > m.startingChips);
    var hands, stored := LiveHands(m.matchId, m.seats, m.hands), StoredMatch(m).hands;
    AddedOne(end);
    LiveAppend(hands, [end]);
    hide Total;
    TotalOne(Added(end));
    TotalAppend(HandAdditions(stored), [Added(end)]);
    AlikeSame(Added(end), n);
    AlikeMerge(LiveTotals(hands), Total(HandAdditions(stored)), HandsKeepNames(m.matchId, m.seats, m.hands),
               Added(end), Added(end), true, n);
  }

  lemma StoredStep(history: seq<PlayedMatch>)
    requires AllWellPlayed(history) && history != [] && AllReducible(StoredMatches(history[..|history| - 1]))
    requires Reducible(StoredMatch(history[|history| - 1]))
    ensures AllReducible(StoredMatches(history))
    ensures Additions(StoredMatches(history)) ==
            Additions(StoredMatches(history[..|history| - 1])) + MatchAdditions(StoredMatch(history[|history| - 1]))
  {
    hide WellPlayed, StoredMatch, Reducible, MatchAdditions, Additions;
    var earlier, last := StoredMatches(history[..|history| - 1]), StoredMatch(history[|history| - 1]);
    assert StoredMatches(history) == earlier + [last];
    hide StoredMatches;
    AdditionsOne(last);
    AdditionsAppend(earlier, [last]);
  }

  /** No match of the history has more seats than this. */
  function Widest(history: seq<PlayedMatch>): (n: nat)
    ensures forall i :: 0 <= i < |history| ==> |history[i].seats| <= n
  {
    if history == [] then 0
    else
      var last := |history[|history| - 1].seats|;
      var n := Widest(history[..|history| - 1]);
      assert forall i :: 0 <= i < |history| - 1 ==> history[i] == history[..|history| - 1][i];
      if last > n then last else n
  }

  lemma NamesKeptStep(history: seq<PlayedMatch>)
    requires AllWellPlayed(history) && history != []
    ensures var k := |history| - 1;
            && AllWellPlayed(history[..k]) && WellPlayed(history[k])
            && GoodHands(history[k].matchId, history[k].seats, history[k].hands)
            && (AllNamesKept(history) <==>
                  AllNamesKept(history[..k]) && HandsKeepNames(history[k].matchId, history[k].seats, history[k].hands))
  {
    hide WellPlayed, HandsKeepNames, GoodHands;
    PlayedGoodHands(history);
  }

  lemma PlayedGoodHands(history: seq<PlayedMatch>)
    requires AllWellPlayed(history)
    ensures forall i :: 0 <= i < |history| ==> GoodHands(history[i].matchId, history[i].seats, history[i].hands)
  {
    hide GoodHands;
  }

  /** Two sides of a history: they differ in positions at most, and only where names were not kept. */
  lemma {:induction false} HistoryAlike(history: seq<PlayedMatch>, n: nat)
    requires AllWellPlayed(history) && forall i :: 0 <= i < |history| ==> |history[i].seats| <= n
    ensures AllAccepted(AllEvents(history)) && AllReducible(StoredMatches(history))
    ensures Alike(LiveTotals(AllEvents(history)), Total(Additions(StoredMatches(history))), n, AllNamesKept(history))
  {
    hide WellPlayed, LiveEvents, StoredMatch, MatchAdditions, AllAccepted, AddedAll, Reducible, Alike, MergeAll;
    if history == [] {
      NothingAdded();
      AlikeSame(map[], n);
    } else {
      var k := |history| - 1;
      NamesKeptStep(history);
      hide AllWellPlayed, AllNamesKept, AllReducible, HandsKeepNames, LiveTotals;
      HistoryAlike(history[..k], n);
      MatchAlike(history[k], n);
      StoredStep(history);
      hide StoredMatches, Additions;
      LiveAppend(AllEvents(history[..k]), LiveEvents(history[k]));
      TotalAppend(Additions(StoredMatches(history[..k])), MatchAdditions(StoredMatch(history[k])));
      AlikeMerge(LiveTotals(AllEvents(history[..k])), Total(Additions(StoredMatches(history[..k]))),
                 AllNamesKept(history[..k]), LiveTotals(LiveEvents(history[k])),
                 Total(MatchAdditions(StoredMatch(history[k]))),
                 HandsKeepNames(history[k].matchId, history[k].seats, history[k].hands), n);
    }
  }

  lemma NothingAdded()
    ensures AllAccepted([]) && AddedAll([]) == [] && LiveTotals([]) == map[]
  {
  }

  // ---------------------------------------------------------------------------------------------
  // Hands and match ends of matches that are not complete now
  // ---------------------------------------------------------------------------------------------

  /** The addition counts something for the account. */
  predicate Names(e: Addition, a: AccountId) {
    match e
    case HandPlayed(hand) => Among(hand.players, a)
    case MatchFinished(profitable) => a in profitable
  }

  /** It counts nothing for anybody: a hand dealt to nobody, a match nobody sat in. */
  ghost predicate Idle(e: Addition) {
    forall a :: !Names(e, a)
  }

  ghost predicate AllIdle(events: seq<Addition>) {
    forall i :: 0 <= i < |events| ==> Idle(events[i])
  }

  /** Hands dealt and matches played together. */
  function Played(t: Totals, a: AccountId): int {
    if a in t then t[a].dealtHands + t[a].matchesPlayed else 0
  }

  lemma PlayedMerge(x: Totals, y: Totals, a: AccountId)
    ensures Played(MergeAll(x, y), a) == Played(x, a) + Played(y, a)
  {
    hide AddPositions;
  }

  lemma PlayedCounted(t: Totals, a: AccountId)
    ensures Played(Counters(t), a) == Played(t, a)
  {
  }

  lemma {:induction false} PlayedOnce(hand: StatisticsHand, players: seq<StatisticsPlayer>, a: AccountId)
    ensures Played(DeltasOf(hand, players), a) == if Among(players, a) then 1 else 0
  {
    hide Acted, FacedRaise, ThreeBet, Raised, Volunteered, Decisions, Folds;
    if players != [] {
      var n := |players| - 1;
      PlayedOnce(hand, players[..n], a);
      assert players == players[..n] + [players[n]];
    }
  }

  lemma PlayedByAddition(e: Addition, a: AccountId)
    requires Accepted(e)
    ensures Played(Added(e), a) == if Names(e, a) then 1 else 0
  {
    hide DeltasOf;
    if e.HandPlayed? {
      PlayedOnce(e.hand, e.hand.players, a);
    }
  }

  lemma {:induction false} PlayedCounts(events: seq<Addition>, a: AccountId)
    requires AllAccepted(events)
    ensures Played(LiveTotals(events), a) >= 0
    ensures (exists i :: 0 <= i < |events| && Names(events[i], a)) ==> Played(LiveTotals(events), a) > 0
  {
    hide Accepted, Added, MergeAll, LiveTotals, Names;
    if events == [] {
      NothingAdded();
    } else {
      var n := |events| - 1;
      LiveStep(events);
      hide Played;
      PlayedCounts(events[..n], a);
      PlayedByAddition(events[n], a);
      PlayedMerge(LiveTotals(events[..n]), Added(events[n]), a);
      assert forall i :: 0 <= i < n ==> events[i] == events[..n][i];
    }
  }

  lemma {:induction false} IdleAddsNothing(events: seq<Addition>)
    requires AllAccepted(events) && AllIdle(events)
    ensures LiveTotals(events) == map[]
  {
    hide MergeAll, LiveTotals, Accepted;
    if events == [] {
      NothingAdded();
    } else {
      var n := |events| - 1;
      LiveStep(events);
      IdleAddsNothing(events[..n]);
      assert Idle(events[n]) && Accepted(events[n]);
      IdleAdds(events[n]);
      MergeAllUnit(map[]);
    }
  }

  lemma IdleAdds(e: Addition)
    requires Accepted(e) && Idle(e)
    ensures Added(e) == map[]
  {
    forall a ensures a !in Added(e) {
      assert !Names(e, a);
      if e.HandPlayed? {
        PlayersCounted(e.hand, e.hand.players, a);
      }
    }
  }

  /** Any addition that counts something for somebody shows in the counters. */
  lemma ExtraShows(played: Totals, extra: seq<Addition>)
    requires AllAccepted(extra)
    ensures Counters(MergeAll(played, LiveTotals(extra))) == Counters(played) <==> AllIdle(extra)
    ensures AllIdle(extra) ==> MergeAll(played, LiveTotals(extra)) == played
  {
    hide Counters, MergeAll, LiveTotals, Accepted, Names;
    var added := LiveTotals(extra);
    if AllIdle(extra) {
      IdleAddsNothing(extra);
      MergeAllUnit(played);
    } else {
      var i :| 0 <= i < |extra| && !Idle(extra[i]);
      var a :| Names(extra[i], a);
      hide Played, Idle;
      PlayedCounts(extra, a);
      PlayedMerge(played, added, a);
      PlayedCounted(MergeAll(played, added), a);
      PlayedCounted(played, a);
    }
  }

  // ---------------------------------------------------------------------------------------------
  // Live equals rebuilt
  // ---------------------------------------------------------------------------------------------

  /** The live totals are the rebuilt ones, up to positions, plus what the matches not complete now have added. */
  lemma LiveIsRebuildPlus(history: seq<PlayedMatch>, extra: seq<Addition>, events: seq<Addition>)
    requires AllWellPlayed(history) && AllAccepted(extra)
    requires multiset(events) == multiset(AllEvents(history) + extra)
    ensures AllAccepted(AllEvents(history)) && AllAccepted(events) && Rebuilt(StoredMatches(history)).Ok?
    ensures var played, rebuilt := LiveTotals(AllEvents(history)), Rebuilt(StoredMatches(history)).value;
            && LiveTotals(events) == MergeAll(played, LiveTotals(extra))
            && Counters(played) == Counters(rebuilt)
            && (played == rebuilt <==> AllNamesKept(history))
  {
    hide Counters, MergeAll, AllWellPlayed, ReducedHand, Reducible, StoredMatches, AllEvents, Alike;
    hide AllAccepted, LiveTotals, Additions, Total, Rebuilt, AllNamesKept, Accepted;
    var played := AllEvents(history);
    var n := Widest(history);
    HistoryAlike(history, n);
    RebuildIsTotal(StoredMatches(history));
    AlikeDecides(LiveTotals(played), Total(Additions(StoredMatches(history))), n, AllNamesKept(history));
    LiveAppend(played, extra);
    InterleavingIrrelevant(played + extra, events);
  }

  /**
   * Live counting and rebuilding agree on every counter but the positions, in whatever order hands and
   * results arrived, exactly when matches that are not complete now have counted nothing for anybody; and on
   * everything exactly when besides every hand kept its position names.
   */
  lemma LiveAgreesIff(history: seq<PlayedMatch>, extra: seq<Addition>, events: seq<Addition>)
    requires AllWellPlayed(history) && AllAccepted(extra)
    requires multiset(events) == multiset(AllEvents(history) + extra)
    ensures AllAccepted(events) && Rebuilt(StoredMatches(history)).Ok?
    ensures Counters(LiveTotals(events)) == Counters(Rebuilt(StoredMatches(history)).value) <==> AllIdle(extra)
    ensures LiveTotals(events) == Rebuilt(StoredMatches(history)).value <==> AllIdle(extra) && AllNamesKept(history)
  {
    hide Counters, MergeAll, AllWellPlayed, AllAccepted, LiveTotals, ReducedHand, AllIdle;
    hide Total, StoredMatches, AllEvents, Rebuilt, AllNamesKept;
    LiveIsRebuildPlus(history, extra, events);
    ExtraShows(LiveTotals(AllEvents(history)), extra);
  }

  // ---------------------------------------------------------------------------------------------
  // A match voided after it was counted
  // ---------------------------------------------------------------------------------------------

  lemma EventsAppend(xs: seq<PlayedMatch>, ys: seq<PlayedMatch>)
    requires AllWellPlayed(xs) && AllWellPlayed(ys)
    ensures AllWellPlayed(xs + ys) && AllEvents(xs + ys) == AllEvents(xs) + AllEvents(ys)
  {
    hide WellPlayed, LiveEvents;
    if ys == [] {
      assert xs + ys == xs;
    } else {
      EventsAppend(xs, ys[..|ys| - 1]);
      assert (xs + ys)[..|xs + ys| - 1] == xs + ys[..|ys| - 1];
    }
  }

  lemma PlayedParts(history: seq<PlayedMatch>, k: nat)
    requires AllWellPlayed(history) && k < |history|
    ensures AllWellPlayed(history[..k]) && WellPlayed(history[k]) && AllWellPlayed(history[k + 1..])
    ensures history == history[..k] + [history[k]] + history[k + 1..]
  {
    hide WellPlayed;
  }

  lemma EventsWithout(history: seq<PlayedMatch>, k: nat)
    requires AllWellPlayed(history) && k < |history|
    ensures AllWellPlayed(Without(history, k)) && WellPlayed(history[k])
    ensures multiset(AllEvents(history)) == multiset(AllEvents(Without(history, k)) + LiveEvents(history[k]))
  {
    hide WellPlayed, LiveEvents, AllEvents, AllWellPlayed;
    var left, x, right := history[..k], history[k], history[k + 1..];
    PlayedParts(history, k);
    EventsOne(x);
    EventsAppend(left, [x]);
    EventsAppend(left + [x], right);
    EventsAppend(left, right);
    MiddleLast(AllEvents(left), LiveEvents(x), AllEvents(right));
  }

  lemma MiddleLast(xs: seq<Addition>, ys: seq<Addition>, zs: seq<Addition>)
    ensures multiset(xs + ys + zs) == multiset(xs + zs + ys)
  {
  }

  lemma EventsOne(m: PlayedMatch)
    requires WellPlayed(m)
    ensures AllWellPlayed([m]) && AllEvents([m]) == LiveEvents(m)
  {
    hide WellPlayed, LiveEvents;
    assert [m][..0] == [];
  }

  /**
   * Voiding a completed match takes it out of every later rebuild, but its hands and its end stay counted
   * live: from then on the two never agree again, unless nobody sat in it.
   */
  lemma VoidedStaysCounted(history: seq<PlayedMatch>, k: nat, events: seq<Addition>)
    requires AllWellPlayed(history) && k < |history| && history[k].seats != []
    requires multiset(events) == multiset(AllEvents(history))
    ensures AllAccepted(events) && AllWellPlayed(Without(history, k)) && Rebuilt(StoredMatches(Without(history, k))).Ok?
    ensures Counters(LiveTotals(events)) != Counters(Rebuilt(StoredMatches(Without(history, k))).value)
  {
    hide Counters, StoredMatches, LiveTotals, Rebuilt, AllAccepted, LiveHands, Accepted, AllEvents, AllNamesKept;
    EventsWithout(history, k);
    var m := history[k];
    MatchAlike(m, |m.seats|);
    LiveAgreesIff(Without(history, k), LiveEvents(m), events);
    EndNamesSeats(m);
  }

  lemma EndNamesSeats(m: PlayedMatch)
    requires WellPlayed(m) && m.seats != []
    ensures !AllIdle(LiveEvents(m))
  {
    hide LiveHands, GoodHands;
    var events := LiveEvents(m);
    assert Names(events[|events| - 1], m.seats[0]);
  }
}
