/** Final standings of a match and the settlement they are turned into. */
module MatchResults {
  import opened Elo
  import opened Prelude
  import opened RatingLedger

  datatype MatchResult = MatchResult(accountId: AccountId, finalChips: int, finishingRank: int)

  /** How many players other than the one in the given seat hold strictly more than the given chips. */
  function Ahead(stacks: seq<int>, seat: int, chips: int): nat {
    if stacks == [] then 0
    else
      var n := |stacks| - 1;
      Ahead(stacks[..n], seat, chips) + if n != seat && stacks[n] > chips then 1 else 0
  }

  function Rank(stacks: seq<int>, seat: nat): int
    requires seat < |stacks|
  {
    1 + Ahead(stacks, seat, stacks[seat])
  }

  function Standings(accounts: seq<AccountId>, stacks: seq<int>): (r: seq<MatchResult>)
    requires |accounts| == |stacks|
    ensures |r| == |accounts|
  {
    seq(|accounts|, i requires 0 <= i < |accounts| => MatchResult(accounts[i], stacks[i], Rank(stacks, i)))
  }

  function RatingResults(accounts: seq<AccountId>, stacks: seq<int>): (r: seq<Settlement>)
    requires |accounts| == |stacks|
    ensures |r| == |accounts|
  {
    var standings := Standings(accounts, stacks);
    seq(|accounts|, i requires 0 <= i < |accounts| =>
      Settlement(standings[i].accountId, if standings[i].finishingRank == 0 then 1 else standings[i].finishingRank))
  }

  lemma {:induction false} AheadOrder(stacks: seq<int>, i: int, j: int, mine: int, theirs: int)
    requires mine >= theirs
    requires (0 <= i < |stacks| ==> stacks[i] == mine) && (0 <= j < |stacks| ==> stacks[j] == theirs)
    ensures Ahead(stacks, i, mine) <= Ahead(stacks, j, theirs)
    ensures mine > theirs && 0 <= i < |stacks| ==> Ahead(stacks, i, mine) < Ahead(stacks, j, theirs)
  {
    if stacks != [] {
      AheadOrder(stacks[..|stacks| - 1], i, j, mine, theirs);
    }
  }

  lemma {:induction false} AheadRange(stacks: seq<int>, seat: int, chips: int)
    ensures Ahead(stacks, seat, chips) <= |stacks| - if 0 <= seat < |stacks| then 1 else 0
    ensures Ahead(stacks, seat, chips) == 0 <==> forall k :: 0 <= k < |stacks| && k != seat ==> stacks[k] <= chips
  {
    if stacks != [] {
      var n := |stacks| - 1;
      AheadRange(stacks[..n], seat, chips);
      assert forall k :: 0 <= k < n ==> stacks[..n][k] == stacks[k];
    }
  }

  /** A rank is one more than the number of players with more chips. */
  lemma {:induction false} AheadCounts(stacks: seq<int>, seat: int, chips: int)
    ensures Ahead(stacks, seat, chips) == |set k | 0 <= k < |stacks| && k != seat && stacks[k] > chips|
  {
    var all := set k | 0 <= k < |stacks| && k != seat && stacks[k] > chips;
    if stacks != [] {
      var n := |stacks| - 1;
      AheadCounts(stacks[..n], seat, chips);
      var earlier := set k | 0 <= k < |stacks[..n]| && k != seat && stacks[..n][k] > chips;
      assert all == earlier + if n != seat && stacks[n] > chips then {n} else {};
    }
  }

  /**
   * Ranks run against stacks: more chips, better rank; ties exactly on equal stacks; rank 1 holds the most; and
   * each is one more than the number of players with more chips.
   */
  lemma RanksReverseStacks(stacks: seq<int>, i: nat, j: nat)
    requires i < |stacks| && j < |stacks|
    ensures 1 <= Rank(stacks, i) <= |stacks|
    ensures Rank(stacks, i) < Rank(stacks, j) <==> stacks[i] > stacks[j]
    ensures Rank(stacks, i) == Rank(stacks, j) <==> stacks[i] == stacks[j]
    ensures Rank(stacks, i) == 1 <==> forall k :: 0 <= k < |stacks| ==> stacks[k] <= stacks[i]
    ensures Rank(stacks, i) == 1 + |set k | 0 <= k < |stacks| && stacks[k] > stacks[i]|
  {
    AheadCounts(stacks, i, stacks[i]);
    assert (set k | 0 <= k < |stacks| && k != i && stacks[k] > stacks[i]) == set k | 0 <= k < |stacks| && stacks[k] > stacks[i];
    AheadRange(stacks, i, stacks[i]);
    if stacks[i] >= stacks[j] {
      AheadOrder(stacks, i, j, stacks[i], stacks[j]);
    }
    if stacks[j] >= stacks[i] {
      AheadOrder(stacks, j, i, stacks[j], stacks[i]);
    }
  }

  /** A finished match always yields results the rating ledger accepts. */
  lemma ResultsAreValid(accounts: seq<AccountId>, stacks: seq<int>)
    requires |accounts| == |stacks| >= 2
    requires forall i, j :: 0 <= i < j < |accounts| ==> accounts[i] != accounts[j]
    ensures ValidResults(RatingResults(accounts, stacks))
    ensures forall i :: 0 <= i < |accounts| ==> RatingResults(accounts, stacks)[i].rank == Rank(stacks, i)
  {
  }

  /**
   * From the table to the ledger: the sum of the exact rating changes is zero, and of two players with
   * equal ratings the one with more chips gains strictly more.
   */
  lemma StacksDecideRatings(p: Power, ratings: map<AccountId, RatingRecord>, accounts: seq<AccountId>, stacks: seq<int>,
                            i: nat, j: nat)
    requires PowerLaw(p) && |accounts| == |stacks| >= 2 && i < |accounts| && j < |accounts|
    requires forall i, j :: 0 <= i < j < |accounts| ==> accounts[i] != accounts[j]
    ensures var field := Field(ratings, RatingResults(accounts, stacks));
            && TotalDelta(p, K_FACTOR, field, field) == 0.0
            && (Lookup(ratings, accounts[i]).rating == Lookup(ratings, accounts[j]).rating && stacks[i] > stacks[j] ==>
                  Delta(p, K_FACTOR, field[i], field) > Delta(p, K_FACTOR, field[j], field))
  {
    var field := Field(ratings, RatingResults(accounts, stacks));
    ResultsAreValid(accounts, stacks);
    DeltasSumToZero(p, K_FACTOR, field);
    RanksReverseStacks(stacks, i, j);
    if Lookup(ratings, accounts[i]).rating == Lookup(ratings, accounts[j]).rating && stacks[i] > stacks[j] {
      assert Unique(field);
      BetterRankEarnsMore(p, K_FACTOR, field, i, j);
    }
  }
}
