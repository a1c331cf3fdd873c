/** What every statistics counter counts, over one hand and over a whole history. */
module StatisticsLaws {
  import opened Prelude
  import opened PokerHand
  import opened StatisticsReducer
  import opened StatisticsAlgebra

  // ---------------------------------------------------------------------------------------------
  // Counting actions
  // ---------------------------------------------------------------------------------------------

  /** How many actions a player took that have a property. */
  function Tally(actions: seq<StatisticsAction>, a: AccountId, holds: StatisticsAction -> bool): nat {
    if actions == [] then 0
    else
      var x := actions[|actions| - 1];
      Tally(actions[..|actions| - 1], a, holds) + if x.accountId == a && holds(x) then 1 else 0
  }

  predicate Chooses(x: StatisticsAction) {
    x.action.Fold? || x.action.CheckOrCall? || x.action.BetOrRaise?
  }

  predicate GivesUp(x: StatisticsAction) {
    x.action.Fold?
  }

  predicate ChoosesPreflop(x: StatisticsAction) {
    x.street.Preflop? && Chooses(x)
  }

  predicate RaisesPreflop(x: StatisticsAction) {
    x.street.Preflop? && x.action.BetOrRaise?
  }

  /** What a player's preflop calls amount to. */
  function CalledPreflop(actions: seq<StatisticsAction>, a: AccountId): int {
    if actions == [] then 0
    else
      var x := actions[|actions| - 1];
      CalledPreflop(actions[..|actions| - 1], a)
      + if x.accountId == a && x.street.Preflop? && x.action.CheckOrCall? && x.amount.Some? then Max(0, x.amount.value) else 0
  }

  /** What came after the first preflop raise of the hand. */
  function AfterFirstRaise(actions: seq<StatisticsAction>): seq<StatisticsAction> {
    if actions == [] then []
    else if RaisesPreflop(actions[0]) then actions[1..]
    else AfterFirstRaise(actions[1..])
  }

  function FirstChoice(actions: seq<StatisticsAction>, a: AccountId): Option<StatisticsAction> {
    if actions == [] then None
    else if actions[0].accountId == a && ChoosesPreflop(actions[0]) then Some(actions[0])
    else FirstChoice(actions[1..], a)
  }

  // ---------------------------------------------------------------------------------------------
  // The counters
  // ---------------------------------------------------------------------------------------------

  datatype Counter =
    | HandsDealt | HandsWon | MatchesPlayed | MatchesInProfit
    | VpipChances | VpipHands | PfrChances | PfrHands | ThreeBetChances | ThreeBetHands
    | ShowdownChances | ShowdownsReached | ShowdownsWon
    | DecisionsMade | TimesFolded | TimesAllIn | ChipsInPots | PotsSeen
    | HandsAt(position: Position)

  function Reading(s: PlayerStatistics, c: Counter): int {
    match c
    case HandsDealt => s.dealtHands
    case HandsWon => s.wonHands
    case MatchesPlayed => s.matchesPlayed
    case MatchesInProfit => s.profitableMatches
    case VpipChances => s.vpipOpportunities
    case VpipHands => s.vpip
    case PfrChances => s.pfrOpportunities
    case PfrHands => s.pfr
    case ThreeBetChances => s.threeBetOpportunities
    case ThreeBetHands => s.threeBets
    case ShowdownChances => s.showdownOpportunities
    case ShowdownsReached => s.showdowns
    case ShowdownsWon => s.showdownWins
    case DecisionsMade => s.decisions
    case TimesFolded => s.folds
    case TimesAllIn => s.allIns
    case ChipsInPots => s.potTotal
    case PotsSeen => s.potCount
    case HandsAt(position) => CountAt(s.positionCounts, position)
  }

  /** What one hand contributes to a counter of one of its players. */
  function Contribution(hand: StatisticsHand, p: StatisticsPlayer, c: Counter): int {
    var a, actions := p.accountId, hand.actions;
    var choice := FirstChoice(AfterFirstRaise(actions), a);
    match c
    case HandsDealt => 1
    case HandsWon => One(p.wonChips > 0)
    case MatchesPlayed => 0
    case MatchesInProfit => 0
    case VpipChances => One(Tally(actions, a, ChoosesPreflop) > 0)
    case VpipHands => One(Tally(actions, a, RaisesPreflop) > 0 || CalledPreflop(actions, a) > 0)
    case PfrChances => One(Tally(actions, a, ChoosesPreflop) > 0)
    case PfrHands => One(Tally(actions, a, RaisesPreflop) > 0)
    case ThreeBetChances => One(choice.Some?)
    case ThreeBetHands => One(choice.Some? && choice.value.action.BetOrRaise?)
    case ShowdownChances => One(!p.folded)
    case ShowdownsReached => One(!p.folded && hand.reachedShowdown)
    case ShowdownsWon => One(!p.folded && hand.reachedShowdown && p.showdown && p.wonChips > 0)
    case DecisionsMade => Tally(actions, a, Chooses)
    case TimesFolded => Tally(actions, a, GivesUp)
    case TimesAllIn => One(p.allIn)
    case ChipsInPots => hand.potAmount
    case PotsSeen => 1
    case HandsAt(position) => One(p.position == position)
  }

  lemma {:induction false} TallyPositive(actions: seq<StatisticsAction>, a: AccountId, holds: StatisticsAction -> bool)
    ensures Tally(actions, a, holds) > 0 <==>
            exists i :: 0 <= i < |actions| && actions[i].accountId == a && holds(actions[i])
  {
    if actions != [] {
      var n := |actions| - 1;
      TallyPositive(actions[..n], a, holds);
      assert forall i :: 0 <= i < n ==> actions[..n][i] == actions[i];
    }
  }

  lemma {:induction false} CalledPositive(actions: seq<StatisticsAction>, a: AccountId)
    ensures CalledPreflop(actions, a) >= 0
    ensures CalledPreflop(actions, a) > 0 <==>
            exists i :: 0 <= i < |actions| && actions[i].accountId == a && actions[i].street.Preflop?
                        && actions[i].action.CheckOrCall? && actions[i].amount.Some? && actions[i].amount.value > 0
  {
    if actions != [] {
      var n := |actions| - 1;
      CalledPositive(actions[..n], a);
      assert forall i :: 0 <= i < n ==> actions[..n][i] == actions[i];
    }
  }

  lemma {:induction false} RaisePlace(actions: seq<StatisticsAction>) returns (r: nat)
    ensures r <= |actions| && forall j :: 0 <= j < r ==> !RaisesPreflop(actions[j])
    ensures r < |actions| ==> RaisesPreflop(actions[r]) && AfterFirstRaise(actions) == actions[r + 1..]
    ensures r == |actions| ==> AfterFirstRaise(actions) == []
  {
    if actions == [] || RaisesPreflop(actions[0]) {
      r := 0;
    } else {
      r := RaisePlace(actions[1..]);
      r := r + 1;
    }
  }

  lemma {:induction false} ChoicePlace(actions: seq<StatisticsAction>, a: AccountId) returns (k: nat)
    ensures k <= |actions| && forall j :: 0 <= j < k ==> !(actions[j].accountId == a && ChoosesPreflop(actions[j]))
    ensures FirstChoice(actions, a) == if k < |actions| then Some(actions[k]) else None
    ensures k < |actions| ==> actions[k].accountId == a && ChoosesPreflop(actions[k])
  {
    if actions == [] || (actions[0].accountId == a && ChoosesPreflop(actions[0])) {
      k := 0;
    } else {
      k := ChoicePlace(actions[1..], a);
      k := k + 1;
    }
  }

  lemma FacingIs(actions: seq<StatisticsAction>, r: nat, i: nat)
    requires i < |actions| && r <= |actions| && forall j :: 0 <= j < r ==> !RaisesPreflop(actions[j])
    requires r < |actions| ==> RaisesPreflop(actions[r])
    ensures Facing(actions, i) <==> ChoosesPreflop(actions[i]) && r < i
  {
    if r < i {
      assert PreflopDecision(actions[r]) && Raises(actions[r]);
    }
  }

  /** Where a player first faces a raise is the first choice after the first raise. */
  lemma FirstFaced(actions: seq<StatisticsAction>, a: AccountId) returns (f: nat)
    ensures f <= |actions| && forall i :: 0 <= i < f && actions[i].accountId == a ==> !Facing(actions, i)
    ensures f < |actions| ==> actions[f].accountId == a && Facing(actions, f)
    ensures FirstChoice(AfterFirstRaise(actions), a) == if f < |actions| then Some(actions[f]) else None
  {
    var r := RaisePlace(actions);
    forall i | 0 <= i < |actions| ensures Facing(actions, i) <==> ChoosesPreflop(actions[i]) && r < i {
      FacingIs(actions, r, i);
    }
    hide Facing, ChoosesPreflop, RaisesPreflop, AfterFirstRaise, FirstChoice;
    if r == |actions| {
      var k := ChoicePlace([], a);
      f := |actions|;
    } else {
      var k := ChoicePlace(actions[r + 1..], a);
      f := r + 1 + k;
      assert forall i :: r < i < |actions| ==> actions[i] == actions[r + 1..][i - r - 1];
    }
  }

  /** Facing a raise is choosing after the first raise, and a three-bet is raising at the first such choice. */
  lemma RaisesFaced(actions: seq<StatisticsAction>, a: AccountId)
    ensures var choice := FirstChoice(AfterFirstRaise(actions), a);
            && (FacedRaise(actions, a) <==> choice.Some?)
            && (ThreeBet(actions, a) <==> choice.Some? && choice.value.action.BetOrRaise?)
  {
    var f := FirstFaced(actions, a);
    hide Facing, AfterFirstRaise, FirstChoice;
  }

  lemma {:induction false} DecisionsTally(actions: seq<StatisticsAction>, a: AccountId)
    ensures Decisions(actions, a) == Tally(actions, a, Chooses) && Folds(actions, a) == Tally(actions, a, GivesUp)
  {
    if actions != [] {
      DecisionsTally(actions[..|actions| - 1], a);
    }
  }

  lemma PreflopTallies(actions: seq<StatisticsAction>, a: AccountId)
    ensures Acted(actions, a) <==> Tally(actions, a, ChoosesPreflop) > 0
    ensures Raised(actions, a) <==> Tally(actions, a, RaisesPreflop) > 0
    ensures Volunteered(actions, a) <==> Tally(actions, a, RaisesPreflop) > 0 || CalledPreflop(actions, a) > 0
  {
    TallyPositive(actions, a, ChoosesPreflop);
    TallyPositive(actions, a, RaisesPreflop);
    CalledPositive(actions, a);
    hide Tally, CalledPreflop;
  }

  /** Each counter of a hand reads what it is said to count. */
  lemma HandReads(hand: StatisticsHand, p: StatisticsPlayer, c: Counter)
    ensures Reading(HandDelta(hand, p), c) == Contribution(hand, p, c)
  {
    hide Acted, FacedRaise, ThreeBet, Raised, Volunteered, Decisions, Folds, Tally, CalledPreflop, FirstChoice;
    DecisionsTally(hand.actions, p.accountId);
    PreflopTallies(hand.actions, p.accountId);
    RaisesFaced(hand.actions, p.accountId);
  }

  predicate TakesPart(hand: StatisticsHand, a: AccountId) {
    exists i :: 0 <= i < |hand.players| && hand.players[i].accountId == a
  }

  /** A hand reduces exactly when its players are different accounts and every action is one of theirs. */
  lemma ReducesIff(hand: StatisticsHand)
    ensures ReducedHand(hand).Ok? <==>
            && (forall i, j :: 0 <= i < j < |hand.players| ==> hand.players[i].accountId != hand.players[j].accountId)
            && (forall k :: 0 <= k < |hand.actions| ==> TakesPart(hand, hand.actions[k].accountId))
  {
    hide DeltasOf;
    assert forall a :: Among(hand.players, a) <==> TakesPart(hand, a);
    hide Among, TakesPart;
  }

  /** All players of a hand together made every choice in it, once each. */
  lemma {:induction false} EveryChoiceCounted(actions: seq<StatisticsAction>, accounts: seq<AccountId>)
    requires forall i, j :: 0 <= i < j < |accounts| ==> accounts[i] != accounts[j]
    requires forall i :: 0 <= i < |actions| ==> actions[i].accountId in accounts
    ensures TallyAll(actions, accounts) == Choices(actions)
  {
    if actions == [] {
      NoneTallied(accounts);
    } else {
      var n := |actions| - 1;
      EveryChoiceCounted(actions[..n], accounts);
      OneMoreTallied(actions[..n], actions[n], accounts);
      assert actions == actions[..n] + [actions[n]];
    }
  }

  function Choices(actions: seq<StatisticsAction>): nat {
    if actions == [] then 0 else Choices(actions[..|actions| - 1]) + if Chooses(actions[|actions| - 1]) then 1 else 0
  }

  function TallyAll(actions: seq<StatisticsAction>, accounts: seq<AccountId>): nat {
    if accounts == [] then 0
    else TallyAll(actions, accounts[..|accounts| - 1]) + Tally(actions, accounts[|accounts| - 1], Chooses)
  }

  lemma {:induction false} NoneTallied(accounts: seq<AccountId>)
    ensures TallyAll([], accounts) == 0
  {
    if accounts != [] {
      NoneTallied(accounts[..|accounts| - 1]);
    }
  }

  lemma {:induction false} OneMoreTallied(actions: seq<StatisticsAction>, x: StatisticsAction, accounts: seq<AccountId>)
    requires forall i, j :: 0 <= i < j < |accounts| ==> accounts[i] != accounts[j]
    ensures TallyAll(actions + [x], accounts) ==
            TallyAll(actions, accounts) + if Chooses(x) && x.accountId in accounts then 1 else 0
  {
    assert (actions + [x])[..|actions|] == actions;
    if accounts != [] {
      var n := |accounts| - 1;
      OneMoreTallied(actions, x, accounts[..n]);
      assert accounts == accounts[..n] + [accounts[n]];
    }
  }

  // ---------------------------------------------------------------------------------------------
  // Over a history
  // ---------------------------------------------------------------------------------------------

  /** What a hand contributes to an account: of the player it names, if it does. */
  function OfPlayers(hand: StatisticsHand, players: seq<StatisticsPlayer>, a: AccountId, c: Counter): int {
    if players == [] then 0
    else
      var p := players[|players| - 1];
      OfPlayers(hand, players[..|players| - 1], a, c) + if p.accountId == a then Contribution(hand, p, c) else 0
  }

  function OfHands(hands: seq<StatisticsHand>, a: AccountId, c: Counter): int {
    if hands == [] then 0
    else
      var hand := hands[|hands| - 1];
      OfHands(hands[..|hands| - 1], a, c) + OfPlayers(hand, hand.players, a, c)
  }

  /** A match counts once for everybody in its results, and as profitable for those who won chips in it. */
  function OfResults(results: map<AccountId, MatchOutcome>, a: AccountId, c: Counter): int {
    match c
    case MatchesPlayed => One(a in results)
    case MatchesInProfit => One(a in results && results[a] == Profit)
    case _ => 0
  }

  function OfMatches(matches: seq<StatisticsMatch>, a: AccountId, c: Counter): int {
    if matches == [] then 0
    else
      var m := matches[|matches| - 1];
      OfMatches(matches[..|matches| - 1], a, c) + OfHands(m.hands, a, c) + OfResults(m.results, a, c)
  }

  function ReadingAt(t: Totals, a: AccountId, c: Counter): int {
    if a in t then Reading(t[a], c) else 0
  }

  lemma ReadingMerge(x: Totals, y: Totals, a: AccountId, c: Counter)
    ensures ReadingAt(MergeAll(x, y), a, c) == ReadingAt(x, a, c) + ReadingAt(y, a, c)
  {
    if c.HandsAt? && a in x && a in y {
      AddedCount(x[a].positionCounts, y[a].positionCounts, c.position);
    }
    hide AddPositions;
  }

  lemma AddedCount(x: Positions, y: Positions, position: Position)
    ensures CountAt(AddPositions(x, y), position) == CountAt(x, position) + CountAt(y, position)
  {
  }

  lemma {:induction false} NotNamed(hand: StatisticsHand, players: seq<StatisticsPlayer>, a: AccountId, c: Counter)
    requires forall i :: 0 <= i < |players| ==> players[i].accountId != a
    ensures OfPlayers(hand, players, a, c) == 0 && a !in DeltasOf(hand, players)
  {
    if players != [] {
      NotNamed(hand, players[..|players| - 1], a, c);
    }
  }

  lemma {:induction false} PlayersRead(hand: StatisticsHand, players: seq<StatisticsPlayer>, a: AccountId, c: Counter)
    requires UniquePlayers(players)
    ensures ReadingAt(DeltasOf(hand, players), a, c) == OfPlayers(hand, players, a, c)
  {
    hide HandDelta, Reading, Contribution;
    if players != [] {
      var n := |players| - 1;
      PlayersRead(hand, players[..n], a, c);
      if players[n].accountId == a {
        NotNamed(hand, players[..n], a, c);
        HandReads(hand, players[n], c);
      }
    }
  }

  lemma ResultsRead(results: map<AccountId, MatchOutcome>, a: AccountId, c: Counter)
    ensures ReadingAt(OutcomeDeltas(Profits(results)), a, c) == OfResults(results, a, c)
  {
  }

  lemma {:induction false} HandsRead(hands: seq<StatisticsHand>, a: AccountId, c: Counter)
    requires forall i :: 0 <= i < |hands| ==> ReducedHand(hands[i]).Ok?
    ensures ReadingAt(Total(HandAdditions(hands)), a, c) == OfHands(hands, a, c)
  {
    hide MergeAll, DeltasOf, KnownPlayers, UniquePlayers;
    if hands != [] {
      var n := |hands| - 1;
      HandsRead(hands[..n], a, c);
      assert HandAdditions(hands)[..n] == HandAdditions(hands[..n]);
      hide ReadingAt;
      ReadingMerge(Total(HandAdditions(hands[..n])), ReducedHand(hands[n]).value, a, c);
      PlayersRead(hands[n], hands[n].players, a, c);
    }
  }

  lemma MatchReads(m: StatisticsMatch, a: AccountId, c: Counter)
    requires Reducible(m)
    ensures ReadingAt(Total(MatchAdditions(m)), a, c) == OfHands(m.hands, a, c) + OfResults(m.results, a, c)
  {
    hide MergeAll, ReducedHand, ReadingAt, OutcomeDeltas, Profits;
    HandsRead(m.hands, a, c);
    ResultsRead(m.results, a, c);
    var hands, last := HandAdditions(m.hands), OutcomeDeltas(Profits(m.results));
    assert (hands + [last])[..|hands|] == hands;
    ReadingMerge(Total(hands), last, a, c);
  }

  lemma {:induction false} MatchesRead(matches: seq<StatisticsMatch>, a: AccountId, c: Counter)
    requires AllReducible(matches)
    ensures ReadingAt(Total(Additions(matches)), a, c) == OfMatches(matches, a, c)
  {
    hide MergeAll, Reducible, MatchAdditions, OfHands, OfResults;
    if matches != [] {
      var n := |matches| - 1;
      MatchesRead(matches[..n], a, c);
      hide ReadingAt;
      TotalAppend(Additions(matches[..n]), MatchAdditions(matches[n]));
      ReadingMerge(Total(Additions(matches[..n])), Total(MatchAdditions(matches[n])), a, c);
      MatchReads(matches[n], a, c);
    }
  }

  /** After a rebuild every counter of every account counts exactly what the history holds for it. */
  lemma CountersCount(matches: seq<StatisticsMatch>, a: AccountId, c: Counter)
    requires Rebuilt(matches).Ok?
    ensures ReadingAt(Rebuilt(matches).value, a, c) == OfMatches(matches, a, c)
  {
    hide ReadingAt, OfMatches, Reducible, Additions;
    RebuildIsTotal(matches);
    MatchesRead(matches, a, c);
  }
}
