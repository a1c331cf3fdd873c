/** The loops that add up a match and a whole history. */
module StatisticsRebuild {
  import opened Prelude
  import opened PokerHand
  import opened StatisticsReducer

  /** Adds every entry of one table to another, in whatever order the entries come. */
  method MergeInto(totals: Totals, deltas: Totals) returns (r: Totals)
    ensures r == MergeAll(totals, deltas)
  {
    hide MergeAll, MergeAt;
    r := totals;
    var left := deltas.Keys;
    MergeNothing(totals, deltas);
    while exists a :: a in left
      invariant left <= deltas.Keys
      invariant r == MergeAll(totals, deltas - left)
      decreases left
    {
      var a :| a in left;
      MergeOneMore(totals, deltas, left, a);
      r := MergeAt(r, a, deltas[a]);
      left := left - {a};
    }
    assert deltas - left == deltas;
  }

  lemma MergeNothing(totals: Totals, deltas: Totals)
    ensures MergeAll(totals, deltas - deltas.Keys) == totals
  {
  }

  lemma MergeOneMore(totals: Totals, deltas: Totals, left: set<AccountId>, a: AccountId)
    requires a in left && left <= deltas.Keys
    ensures MergeAt(MergeAll(totals, deltas - left), a, deltas[a]) == MergeAll(totals, deltas - (left - {a}))
  {
    hide Merge;
    var done, next := deltas - left, deltas - (left - {a});
    assert next.Keys == done.Keys + {a};
  }

  method ReduceMatch(m: StatisticsMatch) returns (r: Result<Totals, StatisticsError>)
    ensures r == ReducedMatch(m)
  {
    hide MergeAll, ReducedHand;
    var totals: Totals := map[];
    for i := 0 to |m.hands|
      invariant ReducedHands(m.matchId, m.hands[..i]) == Ok(totals)
    {
      ReducedPrefix(m.matchId, m.hands, i);
      if m.hands[i].matchId != m.matchId {
        return Err(OtherMatch);
      }
      var reduced := ReduceHand(m.hands[i]);
      if reduced.Err? {
        return Err(reduced.error);
      }
      totals := MergeInto(totals, reduced.value);
    }
    assert m.hands[..|m.hands|] == m.hands;
    totals := MergeInto(totals, OutcomeDeltas(Profits(m.results)));
    r := Ok(totals);
  }

  lemma {:induction false} ReducedStops(matchId: nat, hands: seq<StatisticsHand>, i: nat)
    requires i <= |hands| && ReducedHands(matchId, hands[..i]).Err?
    ensures ReducedHands(matchId, hands) == ReducedHands(matchId, hands[..i])
  {
    if i == |hands| {
      assert hands[..i] == hands;
    } else {
      assert hands[..|hands| - 1][..i] == hands[..i];
      ReducedStops(matchId, hands[..|hands| - 1], i);
    }
  }

  /** The first hand that cannot be reduced decides the outcome for the whole match. */
  lemma ReducedPrefix(matchId: nat, hands: seq<StatisticsHand>, i: nat)
    requires i < |hands| && ReducedHands(matchId, hands[..i]).Ok?
    ensures hands[..i + 1][..i] == hands[..i]
    ensures hands[i].matchId != matchId ==> ReducedHands(matchId, hands) == Err(OtherMatch)
    ensures hands[i].matchId == matchId && ReducedHand(hands[i]).Err? ==>
              ReducedHands(matchId, hands) == Err(ReducedHand(hands[i]).error)
  {
    assert hands[..i + 1][..i] == hands[..i];
    if hands[i].matchId != matchId || ReducedHand(hands[i]).Err? {
      ReducedStops(matchId, hands, i + 1);
    }
  }

  method RebuildStatistics(matches: seq<StatisticsMatch>) returns (r: Result<Totals, StatisticsError>)
    ensures r == Rebuilt(matches)
  {
    hide MergeAll, ReducedMatch;
    var totals: Totals := map[];
    for i := 0 to |matches|
      invariant Rebuilt(matches[..i]) == Ok(totals)
    {
      assert matches[..i + 1][..i] == matches[..i];
      var reduced := ReduceMatch(matches[i]);
      if reduced.Err? {
        RebuildStops(matches, i + 1);
        return Err(reduced.error);
      }
      totals := MergeInto(totals, reduced.value);
    }
    assert matches[..|matches|] == matches;
    r := Ok(totals);
  }

  lemma {:induction false} RebuildStops(matches: seq<StatisticsMatch>, i: nat)
    requires i <= |matches| && Rebuilt(matches[..i]).Err?
    ensures Rebuilt(matches) == Rebuilt(matches[..i])
  {
    if i == |matches| {
      assert matches[..i] == matches;
    } else {
      assert matches[..|matches| - 1][..i] == matches[..i];
      RebuildStops(matches[..|matches| - 1], i);
    }
  }
}
