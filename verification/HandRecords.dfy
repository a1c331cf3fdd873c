/**
 * The two ways from a completed hand to the hand the statistics are reduced from: directly while the
 * match runs, and through the stored history rows when everything is rebuilt.
 */
module HandRecords {
  import opened Prelude
  import opened PokerHand
  import opened MatchState
  import opened ActorState
  import opened StatisticsReducer
  import opened PositionNames

  datatype RecordError = ButtonNotSeated | PlayerNotSeated

  /** One entry per player in everything the conversions index by seat. */
  predicate WellShaped(c: CompletedHand) {
    var n := |c.public.accountIds|;
    |c.public.folded| == n && |c.public.allIn| == n && |c.settlement.payoffs| == n
  }

  predicate Shown(actions: seq<HandAction>, a: AccountId) {
    exists i :: 0 <= i < |actions| && actions[i].accountId == a && actions[i].action.Show?
  }

  predicate ReachedShowdown(actions: seq<HandAction>) {
    exists i :: 0 <= i < |actions| && (actions[i].action.Show? || actions[i].action.Muck?)
  }

  function ActionRow(a: HandAction): StatisticsAction {
    StatisticsAction(a.accountId, a.street, a.action, a.amount)
  }

  function ActionRows(actions: seq<HandAction>): seq<StatisticsAction> {
    seq(|actions|, i requires 0 <= i < |actions| => ActionRow(actions[i]))
  }

  function PotAmounts(c: CompletedHand): seq<int> {
    if c.settlement.pots != [] then Amounts(c.settlement.pots) else c.public.potAmounts
  }

  function Amounts(pots: seq<Pot>): seq<int> {
    seq(|pots|, i requires 0 <= i < |pots| => pots[i].amount)
  }

  // ---------------------------------------------------------------------------------------------
  // Live
  // ---------------------------------------------------------------------------------------------

  function LivePlayer(c: CompletedHand, button: nat, i: nat): StatisticsPlayer
    requires WellShaped(c) && i < |c.public.accountIds|
  {
    var a := c.public.accountIds[i];
    StatisticsPlayer(a, PositionOf(|c.public.accountIds|, button, i), c.public.folded[i], c.public.allIn[i],
                     Max(0, c.settlement.payoffs[i]), Shown(c.actions, a))
  }

  /** The live conversion looks the button up among the players of the hand. */
  function LiveHand(matchId: nat, c: CompletedHand): Result<StatisticsHand, RecordError>
    requires WellShaped(c)
  {
    match PlayerIndex(c.public.accountIds, c.buttonAccountId)
    case None => Err(ButtonNotSeated)
    case Some(button) =>
      var n := |c.public.accountIds|;
      Ok(StatisticsHand(matchId, Sum(PotAmounts(c)),
                        seq(n, i requires 0 <= i < n => LivePlayer(c, button, i)),
                        ActionRows(c.actions), ReachedShowdown(c.actions)))
  }

  // ---------------------------------------------------------------------------------------------
  // Stored
  // ---------------------------------------------------------------------------------------------

  datatype HandPlayerRow = HandPlayerRow(accountId: AccountId, folded: bool, allIn: bool, shown: bool, wonChips: int)

  datatype HandRow = HandRow(
    matchId: nat, buttonAccountId: AccountId, players: seq<HandPlayerRow>, actions: seq<StatisticsAction>, pots: seq<int>)

  function PlayerRow(c: CompletedHand, i: nat): HandPlayerRow
    requires WellShaped(c) && i < |c.public.accountIds|
  {
    var a := c.public.accountIds[i];
    HandPlayerRow(a, c.public.folded[i], c.public.allIn[i], Shown(c.actions, a), Max(0, c.settlement.payoffs[i]))
  }

  function HandHistory(matchId: nat, c: CompletedHand): HandRow
    requires WellShaped(c)
  {
    var n := |c.public.accountIds|;
    HandRow(matchId, c.buttonAccountId, seq(n, i requires 0 <= i < n => PlayerRow(c, i)), ActionRows(c.actions),
            PotAmounts(c))
  }

  function StoredPlayer(row: HandPlayerRow, seats: seq<AccountId>, button: nat): StatisticsPlayer
    requires row.accountId in seats
  {
    StatisticsPlayer(row.accountId, PositionOf(|seats|, button, PlayerIndex(seats, row.accountId).value),
                     row.folded, row.allIn, row.wonChips, row.shown)
  }

  /** The conversion from storage looks the button and the players up among all seats of the match. */
  function StoredHand(row: HandRow, seats: seq<AccountId>): Result<StatisticsHand, RecordError> {
    match PlayerIndex(seats, row.buttonAccountId)
    case None => Err(ButtonNotSeated)
    case Some(button) =>
      if exists i :: 0 <= i < |row.players| && row.players[i].accountId !in seats then Err(PlayerNotSeated)
      else
        Ok(StatisticsHand(
          row.matchId, Sum(row.pots),
          seq(|row.players|, i requires 0 <= i < |row.players| => StoredPlayer(row.players[i], seats, button)),
          row.actions,
          exists i :: 0 <= i < |row.actions| && (row.actions[i].action.Show? || row.actions[i].action.Muck?)))
  }

  // ---------------------------------------------------------------------------------------------
  // The two ways agree
  // ---------------------------------------------------------------------------------------------

  function WithoutPosition(p: StatisticsPlayer): StatisticsPlayer {
    p.(position := OnButton)
  }

  /** Two hands that differ in position names at most. */
  predicate SameButPositions(h: StatisticsHand, g: StatisticsHand) {
    && h.matchId == g.matchId && h.potAmount == g.potAmount && h.actions == g.actions
    && h.reachedShowdown == g.reachedShowdown && |h.players| == |g.players|
    && forall i :: 0 <= i < |h.players| ==> WithoutPosition(h.players[i]) == WithoutPosition(g.players[i])
  }

  /** The seat numbers of some of a match's players. */
  function Places(ids: seq<AccountId>, seats: seq<AccountId>): (dealt: seq<nat>)
    requires forall i :: 0 <= i < |ids| ==> ids[i] in seats
    ensures |dealt| == |ids|
  {
    seq(|ids|, i requires 0 <= i < |ids| => PlayerIndex(seats, ids[i]).value)
  }

  /** The hand was dealt to players of the match in seat order, and its button sits in the match. */
  predicate SeatedHand(c: CompletedHand, seats: seq<AccountId>) {
    && WellShaped(c) && c.buttonAccountId in seats && Distinct(seats)
    && (forall i :: 0 <= i < |c.public.accountIds| ==> c.public.accountIds[i] in seats)
    && Rising(Places(c.public.accountIds, seats), |seats|)
  }

  /** Counting positions among the players dealt in or among all seats comes to the same. */
  predicate SeatNamesKept(c: CompletedHand, seats: seq<AccountId>)
    requires SeatedHand(c, seats)
  {
    NamesKept(Places(c.public.accountIds, seats), |seats|, PlayerIndex(seats, c.buttonAccountId).value)
  }

  /**
   * Stored hands always convert. Live ones convert exactly when the button account was dealt in, and
   * then give the same hand except for positions.
   */
  lemma PathsAgree(matchId: nat, c: CompletedHand, seats: seq<AccountId>)
    requires SeatedHand(c, seats)
    ensures StoredHand(HandHistory(matchId, c), seats).Ok?
    ensures LiveHand(matchId, c).Ok? <==> c.buttonAccountId in c.public.accountIds
    ensures LiveHand(matchId, c).Ok? ==>
              SameButPositions(LiveHand(matchId, c).value, StoredHand(HandHistory(matchId, c), seats).value)
  {
    hide PlayerIndex, Sum, PotAmounts, Max, PositionOf;
    ShowdownAgrees(c.actions);
  }

  function ChipsIn(pots: seq<Pot>): int {
    if pots == [] then 0 else pots[0].amount + ChipsIn(pots[1..])
  }

  predicate ActedSo(actions: seq<HandAction>, a: AccountId, action: ActionType) {
    exists k :: 0 <= k < |actions| && actions[k].accountId == a && actions[k].action == action
  }

  /** One player as the hand left it: folded, all-in, what was won, and whether the cards were shown. */
  predicate PlayerTaken(c: CompletedHand, p: StatisticsPlayer, i: nat)
    requires WellShaped(c) && i < |c.public.accountIds|
  {
    && p.accountId == c.public.accountIds[i] && p.folded == c.public.folded[i] && p.allIn == c.public.allIn[i]
    && p.wonChips == (if c.settlement.payoffs[i] > 0 then c.settlement.payoffs[i] else 0)
    && (p.showdown <==> ActedSo(c.actions, p.accountId, Show))
  }

  predicate ActionsTaken(actions: seq<HandAction>, taken: seq<StatisticsAction>) {
    && |taken| == |actions|
    && forall k :: 0 <= k < |actions| ==>
         && taken[k].accountId == actions[k].accountId && taken[k].street == actions[k].street
         && taken[k].action == actions[k].action && taken[k].amount == actions[k].amount
  }

  /** What a hand for the statistics takes over from the completed hand. */
  predicate TakenOver(c: CompletedHand, h: StatisticsHand) {
    && WellShaped(c) && |h.players| == |c.public.accountIds|
    && (forall i :: 0 <= i < |h.players| ==> PlayerTaken(c, h.players[i], i))
    && ActionsTaken(c.actions, h.actions)
    && (h.reachedShowdown <==> exists k :: 0 <= k < |c.actions| && (c.actions[k].action == Show || c.actions[k].action == Muck))
    && h.potAmount == if c.settlement.pots == [] then Sum(c.public.potAmounts) else ChipsIn(c.settlement.pots)
  }

  /** The parts that do not belong to a player. */
  lemma PartsTaken(c: CompletedHand, h: StatisticsHand)
    requires WellShaped(c) && |h.players| == |c.public.accountIds|
    requires forall i :: 0 <= i < |h.players| ==> PlayerTaken(c, h.players[i], i)
    requires h.actions == ActionRows(c.actions) && h.reachedShowdown == ReachedShowdown(c.actions)
    requires h.potAmount == Sum(PotAmounts(c))
    ensures TakenOver(c, h)
  {
    hide PlayerTaken, Sum, ChipsIn, WellShaped, PotAmounts, ReachedShowdown;
    PotsTaken(c);
    ShowdownTaken(c.actions);
    assert ActionsTaken(c.actions, h.actions);
  }

  lemma PotsTaken(c: CompletedHand)
    ensures Sum(PotAmounts(c)) == if c.settlement.pots == [] then Sum(c.public.potAmounts) else ChipsIn(c.settlement.pots)
  {
    PotsAdd(c.settlement.pots);
    hide Sum, ChipsIn;
  }

  lemma ShowdownTaken(actions: seq<HandAction>)
    ensures ReachedShowdown(actions) <==> exists k :: 0 <= k < |actions| && (actions[k].action == Show || actions[k].action == Muck)
  {
    if ReachedShowdown(actions) {
      var k :| 0 <= k < |actions| && (actions[k].action.Show? || actions[k].action.Muck?);
      assert actions[k].action == Show || actions[k].action == Muck;
    }
  }

  lemma LiveParts(matchId: nat, c: CompletedHand)
    requires WellShaped(c) && LiveHand(matchId, c).Ok?
    ensures var h := LiveHand(matchId, c).value;
            && |h.players| == |c.public.accountIds| && h.actions == ActionRows(c.actions)
            && h.reachedShowdown == ReachedShowdown(c.actions) && h.potAmount == Sum(PotAmounts(c))
            && forall i :: 0 <= i < |h.players| ==> PlayerTaken(c, h.players[i], i)
  {
    hide PlayerIndex, Sum, PotAmounts, PositionOf, ActionRows, ReachedShowdown;
  }

  lemma StoredParts(matchId: nat, c: CompletedHand, seats: seq<AccountId>)
    requires SeatedHand(c, seats) && StoredHand(HandHistory(matchId, c), seats).Ok?
    ensures var h := StoredHand(HandHistory(matchId, c), seats).value;
            && |h.players| == |c.public.accountIds| && h.actions == ActionRows(c.actions)
            && h.reachedShowdown == ReachedShowdown(c.actions) && h.potAmount == Sum(PotAmounts(c))
            && forall i :: 0 <= i < |h.players| ==> PlayerTaken(c, h.players[i], i)
  {
    hide PlayerIndex, Sum, PotAmounts, PositionOf, ActionRows, Rising;
    ShowdownAgrees(c.actions);
  }

  /** Both ways take everything over as it was. */
  lemma BothTakeOver(matchId: nat, c: CompletedHand, seats: seq<AccountId>)
    requires SeatedHand(c, seats) && StoredHand(HandHistory(matchId, c), seats).Ok?
    ensures LiveHand(matchId, c).Ok? ==> TakenOver(c, LiveHand(matchId, c).value)
    ensures TakenOver(c, StoredHand(HandHistory(matchId, c), seats).value)
  {
    hide PlayerIndex, Sum, PositionOf, Rising, LiveHand, StoredHand, TakenOver, PlayerTaken, ActionRows, ReachedShowdown;
    if LiveHand(matchId, c).Ok? {
      LiveParts(matchId, c);
      PartsTaken(c, LiveHand(matchId, c).value);
    }
    StoredParts(matchId, c, seats);
    PartsTaken(c, StoredHand(HandHistory(matchId, c), seats).value);
  }

  lemma {:induction false} PotsAdd(pots: seq<Pot>)
    ensures Sum(Amounts(pots)) == ChipsIn(pots)
  {
    if pots != [] {
      PotsAdd(pots[1..]);
      assert Amounts(pots) == [pots[0].amount] + Amounts(pots[1..]);
      SumAppend([pots[0].amount], Amounts(pots[1..]));
      assert [pots[0].amount][..0] == [];
      assert Sum([pots[0].amount]) == pots[0].amount;
    }
  }

  /** Where the button and each player of a converted hand come from. */
  lemma ConvertedNames(matchId: nat, c: CompletedHand, seats: seq<AccountId>, i: nat)
    requires SeatedHand(c, seats) && c.buttonAccountId in c.public.accountIds && i < |c.public.accountIds|
    requires LiveHand(matchId, c).Ok? && StoredHand(HandHistory(matchId, c), seats).Ok?
    ensures var dealt := Places(c.public.accountIds, seats);
            var p := PlayerIndex(c.public.accountIds, c.buttonAccountId).value;
            var live, stored := LiveHand(matchId, c).value, StoredHand(HandHistory(matchId, c), seats).value;
            && dealt[p] == PlayerIndex(seats, c.buttonAccountId).value
            && |live.players| == |stored.players| == |dealt|
            && live.players[i].position == LiveName(dealt, p, i)
            && stored.players[i].position == StoredName(dealt, |seats|, p, i)
            && live.players[i].accountId == stored.players[i].accountId == c.public.accountIds[i]
  {
    hide PlayerIndex, Sum, PotAmounts, Max, PositionOf, Rising;
  }

  /**
   * The two ways give the very same hand exactly when the seat after the button was dealt in, with three or
   * more players the seat after that too, and every other player sits before the first empty seat.
   */
  lemma SameHandIff(matchId: nat, c: CompletedHand, seats: seq<AccountId>)
    requires SeatedHand(c, seats) && c.buttonAccountId in c.public.accountIds
    ensures LiveHand(matchId, c) == StoredHand(HandHistory(matchId, c), seats) <==> SeatNamesKept(c, seats)
  {
    PathsAgree(matchId, c, seats);
    var live, stored := LiveHand(matchId, c).value, StoredHand(HandHistory(matchId, c), seats).value;
    var dealt, p := Places(c.public.accountIds, seats), PlayerIndex(c.public.accountIds, c.buttonAccountId).value;
    hide PlayerIndex, LiveHand, StoredHand, LiveName, StoredName, NamesKept, HandHistory, Rising;
    ConvertedNames(matchId, c, seats, p);
    NamesKeptIff(dealt, |seats|, p);
    forall i | 0 <= i < |dealt|
      ensures live.players[i] == stored.players[i] <==> LiveName(dealt, p, i) == StoredName(dealt, |seats|, p, i)
    {
      ConvertedNames(matchId, c, seats, i);
      SamePlayer(live.players[i], stored.players[i]);
    }
    assert live == stored <==> live.players == stored.players;
  }

  lemma SamePlayer(p: StatisticsPlayer, q: StatisticsPlayer)
    requires WithoutPosition(p) == WithoutPosition(q)
    ensures p == q <==> p.position == q.position
  {
    assert WithoutPosition(p).accountId == WithoutPosition(q).accountId;
    assert WithoutPosition(p).folded == WithoutPosition(q).folded;
    assert WithoutPosition(p).allIn == WithoutPosition(q).allIn;
    assert WithoutPosition(p).wonChips == WithoutPosition(q).wonChips;
    assert WithoutPosition(p).showdown == WithoutPosition(q).showdown;
  }

  lemma ShowdownAgrees(actions: seq<HandAction>)
    ensures var rows := ActionRows(actions);
            ReachedShowdown(actions) <==>
            exists i :: 0 <= i < |rows| && (rows[i].action.Show? || rows[i].action.Muck?)
  {
    var rows := ActionRows(actions);
    if ReachedShowdown(actions) {
      var i :| 0 <= i < |actions| && (actions[i].action.Show? || actions[i].action.Muck?);
      assert rows[i].action.Show? || rows[i].action.Muck?;
    }
  }

  /**
   * The displayed button is the seat the button index points at, busted or not. So the live conversion
   * of a finished hand fails exactly when that seat was out of chips when the hand was dealt.
   */
  lemma LiveFailsOnBustedButton(s: Actor, settlement: Settlement)
    requires s.handId.Some? && MatchInv(s.game) && s.game.hand.Some? && s.game.handBlinds.Some?
    requires WellShaped(CompletedFrom(s, settlement))
    ensures LiveHand(s.matchId, CompletedFrom(s, settlement)).Err? <==>
            StackOf(s.game.stacks, s.game.playerIds[s.game.buttonIndex]) == 0
    ensures SeatedHand(CompletedFrom(s, settlement), s.game.playerIds)
  {
    hide PlayerIndex, Sum, PotAmounts, ValidHand, Rising, Places;
    FundedMembers(s.game.playerIds, s.game.stacks);
    FundedInOrder(s.game.playerIds, s.game.stacks);
  }

  lemma DistinctOneMore(seats: seq<AccountId>, last: AccountId)
    requires Distinct(seats) && last !in seats
    ensures Distinct(seats + [last])
  {
  }

  /** A seat further along does not renumber the earlier ones. */
  lemma PlacesOneMore(chosen: seq<AccountId>, seats: seq<AccountId>, last: AccountId)
    requires Distinct(seats) && last !in seats && forall i :: 0 <= i < |chosen| ==> chosen[i] in seats
    ensures forall i :: 0 <= i < |chosen| ==> chosen[i] in seats + [last]
    ensures Places(chosen, seats + [last]) == Places(chosen, seats)
    ensures PlayerIndex(seats + [last], last) == Some(|seats|)
  {
    hide PlayerIndex, Distinct;
    DistinctOneMore(seats, last);
    SeatOf(seats + [last], |seats|);
    forall i | 0 <= i < |chosen| ensures PlayerIndex(seats + [last], chosen[i]) == PlayerIndex(seats, chosen[i]) {
      SeatOf(seats + [last], PlayerIndex(seats, chosen[i]).value);
    }
  }

  /** The funded seats are dealt in in seat order. */
  lemma {:induction false} FundedInOrder(ids: seq<AccountId>, stacks: map<AccountId, int>)
    requires Distinct(ids)
    ensures forall i :: 0 <= i < |Funded(ids, stacks)| ==> Funded(ids, stacks)[i] in ids
    ensures Rising(Places(Funded(ids, stacks), ids), |ids|)
  {
    hide PlayerIndex;
    if ids != [] {
      var n := |ids| - 1;
      var rest, earlier := ids[..n], Funded(ids[..n], stacks);
      FundedInOrder(rest, stacks);
      assert ids == rest + [ids[n]] && ids[n] !in rest;
      PlacesOneMore(earlier, rest, ids[n]);
      var funded := Funded(ids, stacks);
      assert funded == earlier || funded == earlier + [ids[n]];
      hide Funded, Distinct;
      if funded != earlier {
        assert Places(funded, ids) == Places(earlier, rest) + [n];
      }
    }
  }

  /** With the second of three seats out, the third is the small blind live and the big blind in the rebuild. */
  lemma BustedSeatMovesPositions(c: CompletedHand)
    requires WellShaped(c) && c.public.accountIds == [1, 3] && c.buttonAccountId == 1
    ensures LiveHand(0, c).Ok? && LiveHand(0, c).value.players[1].position == OnSmallBlind
    ensures var stored := StoredHand(HandHistory(0, c), [1, 2, 3]);
            stored.Ok? && stored.value.players[1].position == OnBigBlind
  {
    hide Sum, PotAmounts;
    assert PlayerIndex([1, 3], 1) == Some(0);
    var seats := [1, 2, 3];
    assert seats[1..][1..] == [3];
    assert PlayerIndex(seats, 1) == Some(0) && PlayerIndex(seats, 3) == Some(2);
  }
}
