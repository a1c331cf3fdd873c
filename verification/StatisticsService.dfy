/** The statistics service: one record per account, added to as hands and matches end. */
module StatisticsService {
  import opened Prelude
  import opened PokerHand
  import opened StatisticsReducer
  import opened StatisticsAlgebra
  import opened StatisticsRebuild
  import opened LiveStatistics

  class StatisticsRecords {
    var records: Totals

    constructor ()
      ensures records == map[]
    {
      records := map[];
    }

    method GetOrCreate(account: AccountId) returns (record: PlayerStatistics)
      modifies this
      ensures records == (if account in old(records) then old(records) else old(records)[account := ZERO])
      ensures account in records && record == records[account]
    {
      if account !in records {
        records := records[account := ZERO];
      }
      record := records[account];
    }

    /** Adds every counter of a hand; the two match counters are not a hand's business. */
    method AddDelta(account: AccountId, delta: PlayerStatistics)
      requires account in records
      modifies this
      ensures var x := old(records)[account];
              records == old(records)[account := Merge(x, delta).(matchesPlayed := x.matchesPlayed,
                                                                  profitableMatches := x.profitableMatches)]
    {
      var x := records[account];
      records := records[account := x.(
        dealtHands := x.dealtHands + delta.dealtHands, wonHands := x.wonHands + delta.wonHands,
        vpipOpportunities := x.vpipOpportunities + delta.vpipOpportunities, vpip := x.vpip + delta.vpip,
        pfrOpportunities := x.pfrOpportunities + delta.pfrOpportunities, pfr := x.pfr + delta.pfr,
        threeBetOpportunities := x.threeBetOpportunities + delta.threeBetOpportunities,
        threeBets := x.threeBets + delta.threeBets,
        showdownOpportunities := x.showdownOpportunities + delta.showdownOpportunities,
        showdowns := x.showdowns + delta.showdowns, showdownWins := x.showdownWins + delta.showdownWins,
        decisions := x.decisions + delta.decisions, folds := x.folds + delta.folds,
        allIns := x.allIns + delta.allIns, potTotal := x.potTotal + delta.potTotal,
        potCount := x.potCount + delta.potCount,
        positionCounts := AddPositions(x.positionCounts, delta.positionCounts))];
    }

    /** One hand; a hand that cannot be reduced changes nothing. */
    method ApplyHand(hand: StatisticsHand) returns (r: Result<(), StatisticsError>)
      modifies this
      ensures r.Ok? <==> Accepted(HandPlayed(hand))
      ensures r.Err? ==> records == old(records) && ReducedHand(hand) == Err(r.error)
      ensures r.Ok? ==> records == MergeAll(old(records), Added(HandPlayed(hand)))
    {
      var reduced := ReduceHand(hand);
      if reduced.Err? {
        return Err(reduced.error);
      }
      var deltas := reduced.value;
      NoMatchCounters(hand, hand.players);
      assert HandOnly(deltas);
      var left := deltas.Keys;
      MergeNothing(old(records), deltas);
      hide MergeAll, MergeAt, ReducedHand, DeltasOf;
      while exists a :: a in left
        invariant left <= deltas.Keys
        invariant records == MergeAll(old(records), deltas - left)
        decreases left
      {
        var account :| account in left;
        ghost var before := records;
        var record := GetOrCreate(account);
        AddDelta(account, deltas[account]);
        AddedToRecord(before, account, deltas[account]);
        MergeOneMore(old(records), deltas, left, account);
        left := left - {account};
      }
      assert deltas - left == deltas;
      r := Ok(());
    }

    method ApplyProfitableMatches(results: map<AccountId, bool>)
      modifies this
      ensures records == MergeAll(old(records), Added(MatchFinished(results)))
    {
      var left := results.Keys;
      ghost var deltas := OutcomeDeltas(results);
      MergeNothing(old(records), deltas);
      hide MergeAll, MergeAt;
      while exists a :: a in left
        invariant left <= deltas.Keys
        invariant records == MergeAll(old(records), deltas - left)
        decreases left
      {
        var account :| account in left;
        ghost var before := records;
        var record := GetOrCreate(account);
        records := records[account := record.(matchesPlayed := record.matchesPlayed + 1,
                                              profitableMatches := record.profitableMatches + One(results[account]))];
        OutcomeToRecord(before, account, results[account]);
        MergeOneMore(old(records), deltas, left, account);
        left := left - {account};
      }
      assert deltas - left == deltas;
    }
  }

  predicate HandOnly(ds: Totals) {
    forall a :: a in ds ==> ds[a].matchesPlayed == 0 && ds[a].profitableMatches == 0
  }

  lemma {:induction false} NoMatchCounters(hand: StatisticsHand, players: seq<StatisticsPlayer>)
    ensures HandOnly(DeltasOf(hand, players))
  {
    if players != [] {
      var n := |players| - 1;
      NoMatchCounters(hand, players[..n]);
      assert HandDelta(hand, players[n]).matchesPlayed == 0 && HandDelta(hand, players[n]).profitableMatches == 0;
      hide HandDelta;
    }
  }

  lemma MergeZero(d: PlayerStatistics)
    ensures Merge(ZERO, d) == d
  {
    assert AddPositions(map[], d.positionCounts) == d.positionCounts;
  }

  /** Creating a zero record and adding to it is the same as merging. */
  lemma AddedToRecord(before: Totals, a: AccountId, d: PlayerStatistics)
    requires d.matchesPlayed == 0 && d.profitableMatches == 0
    ensures var x := if a in before then before[a] else ZERO;
            before[a := ZERO][a := Merge(x, d).(matchesPlayed := x.matchesPlayed, profitableMatches := x.profitableMatches)]
            == before[a := Merge(x, d).(matchesPlayed := x.matchesPlayed, profitableMatches := x.profitableMatches)]
            == MergeAt(before, a, d)
  {
    MergeZero(d);
  }

  lemma OutcomeToRecord(before: Totals, a: AccountId, profitable: bool)
    ensures var x := if a in before then before[a] else ZERO;
            var y := x.(matchesPlayed := x.matchesPlayed + 1, profitableMatches := x.profitableMatches + One(profitable));
            before[a := ZERO][a := y] == before[a := y] == MergeAt(before, a, OutcomeDelta(profitable))
  {
    MergeZero(OutcomeDelta(profitable));
    if a in before {
      var m := before[a].positionCounts;
      assert AddPositions(m, map[]) == m;
    }
  }
}
