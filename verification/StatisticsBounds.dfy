/** Orderings between the counters that hold for every history. */
module StatisticsBounds {
  import opened Prelude
  import opened PokerHand
  import opened StatisticsReducer
  import opened StatisticsAlgebra

  predicate Ordered(s: PlayerStatistics) {
    && 0 <= s.threeBets <= s.pfr <= s.vpip <= s.vpipOpportunities <= s.dealtHands
    && s.threeBets <= s.threeBetOpportunities <= s.vpipOpportunities == s.pfrOpportunities
    && 0 <= s.showdownWins <= s.showdowns <= s.showdownOpportunities <= s.dealtHands
    && s.showdownWins <= s.wonHands <= s.dealtHands == s.potCount
    && 0 <= s.folds <= s.decisions
    && 0 <= s.allIns <= s.dealtHands
    && 0 <= s.profitableMatches <= s.matchesPlayed
  }

  ghost predicate Within(m: Positions, seats: nat) {
    forall i: nat :: InSeat(i) in m ==> i < seats
  }

  function SeatTotal(m: Positions, seats: nat): int {
    if seats == 0 then 0 else SeatTotal(m, seats - 1) + CountAt(m, InSeat(seats - 1))
  }

  /** All counts of a table of positions whose seat numbers lie below the bound. */
  function PositionTotal(m: Positions, seats: nat): int {
    CountAt(m, OnButton) + CountAt(m, OnSmallBlind) + CountAt(m, OnBigBlind) + SeatTotal(m, seats)
  }

  /** Every dealt hand is counted in exactly one position. */
  ghost predicate Placed(s: PlayerStatistics) {
    forall seats: nat :: Within(s.positionCounts, seats) ==> PositionTotal(s.positionCounts, seats) == s.dealtHands
  }

  ghost predicate Sound(s: PlayerStatistics) {
    Ordered(s) && Placed(s)
  }

  ghost predicate AllSound(t: Totals) {
    forall a :: a in t ==> Sound(t[a])
  }

  // ---------------------------------------------------------------------------------------------
  // Merging
  // ---------------------------------------------------------------------------------------------

  lemma {:induction false} SeatTotalAdds(m: Positions, n: Positions, seats: nat)
    ensures SeatTotal(AddPositions(m, n), seats) == SeatTotal(m, seats) + SeatTotal(n, seats)
  {
    if seats > 0 {
      SeatTotalAdds(m, n, seats - 1);
    }
  }

  lemma MergeSound(x: PlayerStatistics, y: PlayerStatistics)
    requires Sound(x) && Sound(y)
    ensures Sound(Merge(x, y))
  {
    var m, n := x.positionCounts, y.positionCounts;
    forall seats: nat | Within(AddPositions(m, n), seats)
      ensures PositionTotal(AddPositions(m, n), seats) == x.dealtHands + y.dealtHands
    {
      assert Within(m, seats) && Within(n, seats) by {
        assert forall i: nat :: InSeat(i) in m || InSeat(i) in n ==> InSeat(i) in AddPositions(m, n);
      }
      SeatTotalAdds(m, n, seats);
    }
  }

  lemma MergeAllSound(x: Totals, y: Totals)
    requires AllSound(x) && AllSound(y)
    ensures AllSound(MergeAll(x, y))
  {
    hide Sound, Merge;
    forall a | a in x && a in y ensures Sound(Merge(x[a], y[a])) {
      MergeSound(x[a], y[a]);
    }
  }

  // ---------------------------------------------------------------------------------------------
  // One hand
  // ---------------------------------------------------------------------------------------------

  lemma {:induction false} SingleSeatTotal(p: Position, seats: nat)
    ensures SeatTotal(map[p := 1], seats) == if p.InSeat? && p.index < seats then 1 else 0
  {
    if seats > 0 {
      SingleSeatTotal(p, seats - 1);
    }
  }

  lemma {:induction false} FoldsAreDecisions(actions: seq<StatisticsAction>, a: AccountId)
    ensures Folds(actions, a) <= Decisions(actions, a)
  {
    if actions != [] {
      FoldsAreDecisions(actions[..|actions| - 1], a);
    }
  }

  /** A three-bet is a raise, a raise puts money in, and putting money in is a preflop decision. */
  lemma ThreeBetsAreRaises(actions: seq<StatisticsAction>, a: AccountId)
    ensures ThreeBet(actions, a) ==> Raised(actions, a) && FacedRaise(actions, a)
    ensures Raised(actions, a) ==> Volunteered(actions, a)
    ensures Volunteered(actions, a) || FacedRaise(actions, a) ==> Acted(actions, a)
  {
    if ThreeBet(actions, a) {
      var i :| 0 <= i < |actions| && actions[i].accountId == a && Facing(actions, i) && Raises(actions[i]);
      assert actions[i].street.Preflop?;
    }
    if Raised(actions, a) {
      var i :| 0 <= i < |actions| && actions[i].accountId == a && actions[i].street.Preflop? && Raises(actions[i]);
      assert PutsMoneyIn(actions[i]);
    }
    if Volunteered(actions, a) {
      var i :| 0 <= i < |actions| && actions[i].accountId == a && actions[i].street.Preflop? && PutsMoneyIn(actions[i]);
      assert PreflopDecision(actions[i]);
    }
    if FacedRaise(actions, a) {
      var i :| 0 <= i < |actions| && actions[i].accountId == a && Facing(actions, i);
      assert PreflopDecision(actions[i]);
    }
  }

  lemma HandSound(hand: StatisticsHand, p: StatisticsPlayer)
    ensures Sound(HandDelta(hand, p))
  {
    FoldsAreDecisions(hand.actions, p.accountId);
    ThreeBetsAreRaises(hand.actions, p.accountId);
    hide ThreeBet, Raised, FacedRaise, Volunteered, Acted, Folds, Decisions;
    var m: Positions := map[p.position := 1];
    forall seats: nat | Within(m, seats) ensures PositionTotal(m, seats) == 1 {
      SingleSeatTotal(p.position, seats);
      if p.position.InSeat? {
        assert InSeat(p.position.index) in m;
      }
    }
  }

  lemma {:induction false} DeltasSound(hand: StatisticsHand, players: seq<StatisticsPlayer>)
    ensures AllSound(DeltasOf(hand, players))
  {
    hide Sound, HandDelta;
    if players != [] {
      DeltasSound(hand, players[..|players| - 1]);
      HandSound(hand, players[|players| - 1]);
    }
  }

  lemma {:induction false} NoSeats(seats: nat)
    ensures SeatTotal(map[], seats) == 0
  {
    if seats > 0 {
      NoSeats(seats - 1);
    }
  }

  lemma OutcomeSound(profitable: bool)
    ensures Sound(OutcomeDelta(profitable))
  {
    forall seats: nat ensures PositionTotal(map[], seats) == 0 {
      NoSeats(seats);
    }
  }

  lemma OutcomesSound(results: map<AccountId, bool>)
    ensures AllSound(OutcomeDeltas(results))
  {
    hide Sound;
    forall a | a in results ensures Sound(OutcomeDelta(results[a])) {
      OutcomeSound(results[a]);
    }
  }

  lemma {:induction false} TotalSound(ds: seq<Totals>)
    requires forall i :: 0 <= i < |ds| ==> AllSound(ds[i])
    ensures AllSound(Total(ds))
  {
    hide AllSound, MergeAll;
    if ds == [] {
      NothingSound();
    } else {
      TotalSound(ds[..|ds| - 1]);
      MergeAllSound(Total(ds[..|ds| - 1]), ds[|ds| - 1]);
    }
  }

  lemma NothingSound()
    ensures AllSound(map[])
  {
  }

  lemma {:induction false} AdditionsSound(matches: seq<StatisticsMatch>)
    requires forall i :: 0 <= i < |matches| ==> Reducible(matches[i])
    ensures forall i :: 0 <= i < |Additions(matches)| ==> AllSound(Additions(matches)[i])
  {
    hide AllSound;
    if matches != [] {
      var m := matches[|matches| - 1];
      AdditionsSound(matches[..|matches| - 1]);
      MatchAdditionsSound(m);
    }
  }

  lemma MatchAdditionsSound(m: StatisticsMatch)
    requires Reducible(m)
    ensures forall i :: 0 <= i < |MatchAdditions(m)| ==> AllSound(MatchAdditions(m)[i])
  {
    hide AllSound, OutcomeDeltas, DeltasOf;
    OutcomesSound(Profits(m.results));
    forall i | 0 <= i < |m.hands| ensures AllSound(HandAdditions(m.hands)[i]) {
      DeltasSound(m.hands[i], m.hands[i].players);
    }
  }

  /** Whatever the history, the counters it reduces to are ordered and every hand has one position. */
  lemma RebuildSound(matches: seq<StatisticsMatch>)
    requires Rebuilt(matches).Ok?
    ensures AllSound(Rebuilt(matches).value)
  {
    hide AllSound, Reducible, Additions, Total;
    RebuildIsTotal(matches);
    AdditionsSound(matches);
    TotalSound(Additions(matches));
  }

  /** A displayed rate: absent without opportunities, otherwise between nothing and always. */
  function Ratio(numerator: int, denominator: int): Option<real> {
    if denominator == 0 then None else Some(numerator as real / denominator as real)
  }

  predicate Proportion(r: Option<real>) {
    r.Some? ==> 0.0 <= r.value <= 1.0
  }

  /** A rate is there exactly when there were opportunities, and times them it gives what was taken. */
  lemma RatioIs(numerator: int, denominator: int)
    ensures var r := Ratio(numerator, denominator);
            (r.Some? <==> denominator != 0) && (r.Some? ==> r.value * denominator as real == numerator as real)
  {
  }

  lemma RatioBounded(numerator: int, denominator: int)
    requires 0 <= numerator <= denominator
    ensures Proportion(Ratio(numerator, denominator))
  {
    if denominator != 0 {
      var n, d := numerator as real, denominator as real;
      assert n / d * d == n;
      assert n / d >= 0.0;
    }
  }

  lemma RatesAreProportions(matches: seq<StatisticsMatch>, a: AccountId)
    requires Rebuilt(matches).Ok? && a in Rebuilt(matches).value
    ensures var s := Rebuilt(matches).value[a];
            && Proportion(Ratio(s.vpip, s.vpipOpportunities))
            && Proportion(Ratio(s.pfr, s.pfrOpportunities))
            && Proportion(Ratio(s.threeBets, s.threeBetOpportunities))
            && Proportion(Ratio(s.showdowns, s.showdownOpportunities))
            && Proportion(Ratio(s.showdownWins, s.showdowns))
            && Proportion(Ratio(s.folds, s.decisions))
  {
    RebuildSound(matches);
    hide Ratio, Rebuilt;
    var s := Rebuilt(matches).value[a];
    assert Sound(s);
    RatioBounded(s.vpip, s.vpipOpportunities);
    RatioBounded(s.pfr, s.pfrOpportunities);
    RatioBounded(s.threeBets, s.threeBetOpportunities);
    RatioBounded(s.showdowns, s.showdownOpportunities);
    RatioBounded(s.showdownWins, s.showdowns);
    RatioBounded(s.folds, s.decisions);
  }
}
