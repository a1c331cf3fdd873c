/** Additions to the statistics commute, so only what was added matters, never when. */
module StatisticsAlgebra {
  import opened Prelude
  import opened PokerHand
  import opened StatisticsReducer

  // ---------------------------------------------------------------------------------------------
  // A commutative monoid
  // ---------------------------------------------------------------------------------------------

  lemma PositionsAssociate(x: Positions, y: Positions, z: Positions)
    ensures AddPositions(AddPositions(x, y), z) == AddPositions(x, AddPositions(y, z))
    ensures AddPositions(x, y) == AddPositions(y, x)
  {
  }

  lemma MergeAssociates(x: PlayerStatistics, y: PlayerStatistics, z: PlayerStatistics)
    ensures Merge(Merge(x, y), z) == Merge(x, Merge(y, z))
    ensures Merge(x, y) == Merge(y, x)
  {
    hide AddPositions;
    PositionsAssociate(x.positionCounts, y.positionCounts, z.positionCounts);
  }

  lemma MergeAllCommutes(x: Totals, y: Totals)
    ensures MergeAll(x, y) == MergeAll(y, x)
  {
    hide Merge;
    forall a | a in x.Keys && a in y.Keys ensures Merge(x[a], y[a]) == Merge(y[a], x[a]) {
      MergeAssociates(x[a], y[a], y[a]);
    }
  }

  lemma MergeAllAssociates(x: Totals, y: Totals, z: Totals)
    ensures MergeAll(MergeAll(x, y), z) == MergeAll(x, MergeAll(y, z))
  {
    hide Merge;
    forall a | a in x.Keys && a in y.Keys && a in z.Keys
      ensures Merge(Merge(x[a], y[a]), z[a]) == Merge(x[a], Merge(y[a], z[a]))
    {
      MergeAssociates(x[a], y[a], z[a]);
    }
    assert MergeAll(MergeAll(x, y), z).Keys == MergeAll(x, MergeAll(y, z)).Keys;
  }

  lemma MergeAllUnit(x: Totals)
    ensures MergeAll(map[], x) == x == MergeAll(x, map[])
  {
  }

  function Total(ds: seq<Totals>): Totals {
    if ds == [] then map[] else MergeAll(Total(ds[..|ds| - 1]), ds[|ds| - 1])
  }

  lemma {:induction false} TotalAppend(xs: seq<Totals>, ys: seq<Totals>)
    ensures Total(xs + ys) == MergeAll(Total(xs), Total(ys))
  {
    hide MergeAll;
    if ys == [] {
      assert xs + ys == xs;
      MergeAllUnit(Total(xs));
    } else {
      var n := |ys| - 1;
      TotalAppend(xs, ys[..n]);
      assert (xs + ys)[..|xs + ys| - 1] == xs + ys[..n];
      MergeAllAssociates(Total(xs), Total(ys[..n]), ys[n]);
    }
  }

  lemma TotalOne(x: Totals)
    ensures Total([x]) == x
  {
    assert [x][..0] == [];
    MergeAllUnit(x);
  }

  lemma TotalWithout(ds: seq<Totals>, k: nat)
    requires k < |ds|
    ensures Total(ds) == MergeAll(Total(Without(ds, k)), ds[k])
  {
    hide MergeAll, Total;
    var left, x, right := ds[..k], ds[k], ds[k + 1..];
    assert ds == left + [x] + right;
    TotalAppend(left + [x], right);
    TotalAppend(left, [x]);
    TotalAppend(left, right);
    TotalOne(x);
    MergeAllAssociates(Total(left), x, Total(right));
    MergeAllCommutes(x, Total(right));
    MergeAllAssociates(Total(left), Total(right), x);
  }

  /** The same additions in any order give the same totals. */
  lemma {:induction false} TotalPermutes(xs: seq<Totals>, ys: seq<Totals>)
    requires multiset(xs) == multiset(ys)
    ensures Total(xs) == Total(ys)
    decreases |xs|
  {
    hide MergeAll;
    if xs == [] {
      assert |multiset(ys)| == 0;
    } else {
      var n := |xs| - 1;
      var k := TakeLast(xs, ys);
      TotalPermutes(xs[..n], Without(ys, k));
      TotalWithout(ys, k);
    }
  }

  // ---------------------------------------------------------------------------------------------
  // The rebuild as one sum
  // ---------------------------------------------------------------------------------------------

  predicate Reducible(m: StatisticsMatch) {
    HandsReducible(m.matchId, m.hands)
  }

  function HandAdditions(hands: seq<StatisticsHand>): (ds: seq<Totals>)
    requires forall i :: 0 <= i < |hands| ==> ReducedHand(hands[i]).Ok?
    ensures |ds| == |hands|
    ensures forall i :: 0 <= i < |hands| ==> ds[i] == ReducedHand(hands[i]).value
  {
    if hands == [] then []
    else HandAdditions(hands[..|hands| - 1]) + [ReducedHand(hands[|hands| - 1]).value]
  }

  function MatchAdditions(m: StatisticsMatch): seq<Totals>
    requires Reducible(m)
  {
    HandAdditions(m.hands) + [OutcomeDeltas(Profits(m.results))]
  }

  function Additions(matches: seq<StatisticsMatch>): seq<Totals>
    requires forall i :: 0 <= i < |matches| ==> Reducible(matches[i])
  {
    if matches == [] then []
    else Additions(matches[..|matches| - 1]) + MatchAdditions(matches[|matches| - 1])
  }

  predicate HandsReducible(matchId: nat, hands: seq<StatisticsHand>) {
    forall i :: 0 <= i < |hands| ==> hands[i].matchId == matchId && ReducedHand(hands[i]).Ok?
  }

  lemma HandsReducibleOne(matchId: nat, hands: seq<StatisticsHand>)
    requires hands != []
    ensures var n := |hands| - 1;
            HandsReducible(matchId, hands) <==>
            HandsReducible(matchId, hands[..n]) && hands[n].matchId == matchId && ReducedHand(hands[n]).Ok?
  {
    hide ReducedHand;
    assert forall i :: 0 <= i < |hands| - 1 ==> hands[..|hands| - 1][i] == hands[i];
  }

  lemma {:induction false} HandsReduce(matchId: nat, hands: seq<StatisticsHand>)
    ensures ReducedHands(matchId, hands).Ok? <==> HandsReducible(matchId, hands)
    ensures HandsReducible(matchId, hands) ==> ReducedHands(matchId, hands).value == Total(HandAdditions(hands))
  {
    if hands != [] {
      var n := |hands| - 1;
      HandsReducibleOne(matchId, hands);
      if HandsReducible(matchId, hands) {
        assert HandAdditions(hands)[..n] == HandAdditions(hands[..n]);
      }
      hide ReducedHand, MergeAll, HandsReducible;
      HandsReduce(matchId, hands[..n]);
    }
  }

  lemma MatchReduces(m: StatisticsMatch)
    ensures ReducedMatch(m).Ok? <==> Reducible(m)
    ensures Reducible(m) ==> ReducedMatch(m).value == Total(MatchAdditions(m))
  {
    hide ReducedHand, MergeAll, OutcomeDeltas, Profits;
    HandsReduce(m.matchId, m.hands);
    if Reducible(m) {
      var hands, last := HandAdditions(m.hands), OutcomeDeltas(Profits(m.results));
      assert (hands + [last])[..|hands|] == hands;
    }
  }

  /** A rebuild succeeds exactly when every hand can be reduced, and is then the sum of all additions. */
  lemma {:induction false} RebuildIsTotal(matches: seq<StatisticsMatch>)
    ensures Rebuilt(matches).Ok? <==> forall i :: 0 <= i < |matches| ==> Reducible(matches[i])
    ensures Rebuilt(matches).Ok? ==> Rebuilt(matches).value == Total(Additions(matches))
  {
    hide Reducible, ReducedMatch, MergeAll, MatchAdditions;
    if matches != [] {
      var n := |matches| - 1;
      RebuildIsTotal(matches[..n]);
      assert forall i :: 0 <= i < n ==> matches[..n][i] == matches[i];
      MatchReduces(matches[n]);
      if Rebuilt(matches).Ok? {
        TotalAppend(Additions(matches[..n]), MatchAdditions(matches[n]));
      }
    }
  }

  lemma {:induction false} AdditionsAppend(xs: seq<StatisticsMatch>, ys: seq<StatisticsMatch>)
    requires forall i :: 0 <= i < |xs| ==> Reducible(xs[i])
    requires forall i :: 0 <= i < |ys| ==> Reducible(ys[i])
    ensures forall i :: 0 <= i < |xs + ys| ==> Reducible((xs + ys)[i])
    ensures Additions(xs + ys) == Additions(xs) + Additions(ys)
  {
    hide Reducible, MatchAdditions;
    if ys == [] {
      assert xs + ys == xs;
    } else {
      AdditionsAppend(xs, ys[..|ys| - 1]);
      assert (xs + ys)[..|xs + ys| - 1] == xs + ys[..|ys| - 1];
    }
  }

  /** A history may be rebuilt in two parts and the parts merged. */
  lemma RebuildSplits(xs: seq<StatisticsMatch>, ys: seq<StatisticsMatch>)
    requires Rebuilt(xs).Ok? && Rebuilt(ys).Ok?
    ensures Rebuilt(xs + ys) == Ok(MergeAll(Rebuilt(xs).value, Rebuilt(ys).value))
  {
    hide Reducible, MergeAll;
    RebuildIsTotal(xs);
    RebuildIsTotal(ys);
    AdditionsAppend(xs, ys);
    RebuildIsTotal(xs + ys);
    TotalAppend(Additions(xs), Additions(ys));
  }

  predicate AllReducible(matches: seq<StatisticsMatch>) {
    forall i :: 0 <= i < |matches| ==> Reducible(matches[i])
  }

  lemma PartsReducible(ys: seq<StatisticsMatch>, k: nat)
    requires k < |ys| && AllReducible(Without(ys, k)) && Reducible(ys[k])
    ensures AllReducible(ys[..k]) && AllReducible(ys[k + 1..]) && AllReducible([ys[k]]) && AllReducible(ys)
  {
    hide Reducible;
    forall i | 0 <= i < |ys| && i != k ensures Reducible(ys[i]) {
      WithoutAt(ys, k, if i < k then i else i - 1);
    }
  }

  lemma AdditionsThree(left: seq<StatisticsMatch>, x: StatisticsMatch, right: seq<StatisticsMatch>)
    requires AllReducible(left) && Reducible(x) && AllReducible(right)
    ensures AllReducible(left + [x] + right) && AllReducible(left + right)
    ensures Additions(left + [x] + right) == Additions(left) + MatchAdditions(x) + Additions(right)
    ensures Additions(left + right) == Additions(left) + Additions(right)
  {
    hide Reducible, MatchAdditions, Additions;
    AdditionsOne(x);
    AdditionsAppend(left, [x]);
    AdditionsAppend(left + [x], right);
    AdditionsAppend(left, right);
  }

  lemma AdditionsWithout(ys: seq<StatisticsMatch>, k: nat)
    requires k < |ys| && AllReducible(Without(ys, k)) && Reducible(ys[k])
    ensures AllReducible(ys)
    ensures multiset(Additions(ys)) == multiset(Additions(Without(ys, k))) + multiset(MatchAdditions(ys[k]))
  {
    hide Reducible, MatchAdditions, Additions, AllReducible;
    PartsReducible(ys, k);
    AdditionsThree(ys[..k], ys[k], ys[k + 1..]);
    assert ys == ys[..k] + [ys[k]] + ys[k + 1..];
  }

  lemma {:induction false} AdditionsPermute(xs: seq<StatisticsMatch>, ys: seq<StatisticsMatch>)
    requires multiset(xs) == multiset(ys)
    requires forall i :: 0 <= i < |xs| ==> Reducible(xs[i])
    ensures forall i :: 0 <= i < |ys| ==> Reducible(ys[i])
    ensures multiset(Additions(xs)) == multiset(Additions(ys))
    decreases |xs|
  {
    hide Reducible, MatchAdditions;
    if xs == [] {
      assert |multiset(ys)| == 0;
    } else {
      var n := |xs| - 1;
      var k := TakeLast(xs, ys);
      AdditionsPermute(xs[..n], Without(ys, k));
      AdditionsWithout(ys, k);
    }
  }

  lemma AdditionsOne(m: StatisticsMatch)
    requires Reducible(m)
    ensures forall i :: 0 <= i < |[m]| ==> Reducible([m][i])
    ensures Additions([m]) == MatchAdditions(m)
  {
    assert [m][..0] == [];
  }

  /** The order in which the matches of a history are read does not matter. */
  lemma RebuildPermutes(xs: seq<StatisticsMatch>, ys: seq<StatisticsMatch>)
    requires multiset(xs) == multiset(ys) && Rebuilt(xs).Ok?
    ensures Rebuilt(ys) == Rebuilt(xs)
  {
    hide Reducible, MergeAll;
    RebuildIsTotal(xs);
    AdditionsPermute(xs, ys);
    RebuildIsTotal(ys);
    TotalPermutes(Additions(xs), Additions(ys));
  }
}
