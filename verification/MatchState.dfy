/** The match coordinator's rules on values: seats, chips carried across hands, button and end of match. */
module MatchState {
  import opened Prelude
  import opened Blinds
  import opened PokerHand

  datatype MatchStatus = Active | Complete

  datatype MatchError =
    | MatchOver
    | HandUnsettled
    | NotEnoughPlayers
    | NoActiveButton
    | NoHand
    | NotSeatedInHand
    | StackCountMismatch
    | BadPlayers
    | HandRefused(error: HandError)

  datatype Match = Match(
    rules: RoomRules,
    playerIds: seq<AccountId>,
    buttonIndex: nat,
    stacks: map<AccountId, int>,
    handNumber: nat,
    hand: Option<Hand>,
    handPlayerIds: seq<AccountId>,
    handBlinds: Option<BlindAmounts>,
    status: MatchStatus)

  predicate Distinct(ids: seq<AccountId>) {
    forall i, j :: 0 <= i < j < |ids| ==> ids[i] != ids[j]
  }

  function StackOf(stacks: map<AccountId, int>, account: AccountId): int {
    if account in stacks then stacks[account] else 0
  }

  function StacksOf(stacks: map<AccountId, int>, ids: seq<AccountId>): seq<int> {
    seq(|ids|, i requires 0 <= i < |ids| => StackOf(stacks, ids[i]))
  }

  function TotalChips(m: Match): int {
    Sum(StacksOf(m.stacks, m.playerIds))
  }

  /** The seats that still hold chips, in seat order. */
  function Funded(ids: seq<AccountId>, stacks: map<AccountId, int>): seq<AccountId> {
    if ids == [] then []
    else
      Funded(ids[..|ids| - 1], stacks)
      + if StackOf(stacks, ids[|ids| - 1]) > 0 then [ids[|ids| - 1]] else []
  }

  function NewMatch(ids: seq<AccountId>, rules: RoomRules, buttonIndex: int): Result<Match, MatchError> {
    if |ids| < 2 || |ids| > rules.maxPlayers || !Distinct(ids) || !(0 <= buttonIndex < |ids|) then Err(BadPlayers)
    else
      Ok(Match(rules, ids, buttonIndex, map account | account in ids :: rules.startingChips,
               0, None, [], None, Active))
  }

  /** Seats are numbered around the table, so position i and i + n are the same seat. */
  function Seat(ids: seq<AccountId>, i: nat): AccountId
    requires |ids| > 0
  {
    ids[i % |ids|]
  }

  /** First seat at or after `from`, at most `left` seats on, that is dealt in. */
  function ButtonFrom(ids: seq<AccountId>, active: seq<AccountId>, from: nat, left: nat): Option<AccountId>
    requires |ids| > 0
    decreases left
  {
    if left == 0 then None
    else if Seat(ids, from) in active then Some(Seat(ids, from))
    else ButtonFrom(ids, active, from + 1, left - 1)
  }

  function HandConfigFor(rules: RoomRules, amounts: BlindAmounts): HandConfig {
    HandConfig(rules.ante, amounts.small, amounts.big, rules.winnerMayShowHand)
  }

  /** Starting a hand; a failure keeps whatever had been written before it was raised. */
  function StartHand(kit: PokerKit, m: Match): (Match, Option<MatchError>) {
    if m.status.Complete? then (m, Some(MatchOver))
    else if m.hand.Some? then (m, Some(HandUnsettled))
    else
      var active := Funded(m.playerIds, m.stacks);
      if |active| < 2 || m.playerIds == [] then (m.(status := Complete), Some(NotEnoughPlayers))
      else
        match ButtonFrom(m.playerIds, active, m.buttonIndex, |m.playerIds|)
        case None => (m, Some(NoActiveButton))
        case Some(button) =>
          var amounts := AmountsFor(m.rules, m.handNumber + 1);
          var seated := m.(handPlayerIds := active, handBlinds := Some(amounts), handNumber := m.handNumber + 1);
          match CreateHand(kit, seated.handNumber, HandConfigFor(m.rules, amounts), active,
                           StacksOf(m.stacks, active), button)
          case Err(e) => (seated, Some(HandRefused(e)))
          case Ok(hand) => (seated.(hand := Some(hand)), None)
  }

  function ActInHand(kit: PokerKit, m: Match, c: ActionCommand): Result<(Match, AppliedAction), MatchError> {
    if m.hand.None? then Err(NoHand)
    else
      match ApplyAction(kit, m.hand.value, c)
      case Err(e) => Err(HandRefused(e))
      case Ok((hand, applied)) => Ok((m.(hand := Some(hand)), applied))
  }

  function QuitHand(m: Match, account: AccountId): Result<(Match, Settlement), MatchError> {
    if account !in m.handPlayerIds then Err(NotSeatedInHand)
    else if m.hand.None? then Err(NoHand)
    else
      match QuitPlayer(m.hand.value, account)
      case Err(e) => Err(HandRefused(e))
      case Ok((hand, s)) => Ok((m.(hand := Some(hand)), s))
  }

  function Deposit(stacks: map<AccountId, int>, ids: seq<AccountId>, finals: seq<int>): map<AccountId, int>
    requires |ids| == |finals|
  {
    if ids == [] then stacks
    else Deposit(stacks, ids[..|ids| - 1], finals[..|ids| - 1])[ids[|ids| - 1] := finals[|ids| - 1]]
  }

  predicate FundedOut(m: Match) {
    |Funded(m.playerIds, m.stacks)| <= 1
  }

  predicate MatchIsComplete(m: Match) {
    FundedOut(m) ||
    (m.rules.endMode.FixedHands?
     && m.handNumber >= if m.rules.fixedHandCount.Some? then m.rules.fixedHandCount.value else 0)
  }

  /** Stacks taken over from the hand, the hand cleared away, the button moved one seat on. */
  function AfterHand(m: Match, finals: seq<int>): Match
    requires |finals| == |m.handPlayerIds| && m.playerIds != []
  {
    m.(stacks := Deposit(m.stacks, m.handPlayerIds, finals),
       hand := None, handPlayerIds := [], handBlinds := None,
       buttonIndex := NextSeat(m.buttonIndex, |m.playerIds|))
  }

  function NextSeat(i: nat, n: nat): (r: nat)
    requires n > 0
    ensures r < n
  {
    (i + 1) % n
  }

  function SettleHand(m: Match): Result<(Match, Settlement), MatchError> {
    if m.hand.None? then Err(NoHand)
    else
      match Settle(m.hand.value)
      case Err(e) => Err(HandRefused(e))
      case Ok(s) =>
        if |s.finalStacks| != |m.handPlayerIds| || m.playerIds == [] then Err(StackCountMismatch)
        else
          var settled := AfterHand(m, s.finalStacks);
          Ok((if MatchIsComplete(settled) then settled.(status := Complete) else settled, s))
  }

  // ---------------------------------------------------------------------------------------------
  // Invariant
  // ---------------------------------------------------------------------------------------------

  ghost predicate Seats(m: Match) {
    && ValidRules(m.rules)
    && 2 <= |m.playerIds| <= m.rules.maxPlayers
    && Distinct(m.playerIds)
    && m.buttonIndex < |m.playerIds|
    && (forall account :: account in m.stacks <==> account in m.playerIds)
    && (forall account :: account in m.stacks ==> m.stacks[account] >= 0)
    && (m.rules.endMode.FixedHands? ==> m.handNumber <= m.rules.fixedHandCount.value)
  }

  /** The hand in progress was dealt to exactly the funded seats, with exactly their stacks. */
  ghost predicate HandDealt(m: Match)
    requires m.hand.Some?
  {
    var h := m.hand.value;
    && m.status.Active? && m.handNumber >= 1
    && ValidHand(h)
    && m.handPlayerIds == h.accountIds == Funded(m.playerIds, m.stacks)
    && h.startingStacks == StacksOf(m.stacks, h.accountIds)
    && m.handBlinds == Some(AmountsFor(m.rules, m.handNumber))
  }

  ghost predicate BetweenHands(m: Match) {
    && m.handPlayerIds == [] && m.handBlinds.None?
    && (m.status.Active? ==> !MatchIsComplete(m))
  }

  ghost predicate MatchInv(m: Match) {
    && Seats(m)
    && if m.hand.Some? then HandDealt(m) else BetweenHands(m)
  }

  // ---------------------------------------------------------------------------------------------
  // Funded seats and sums
  // ---------------------------------------------------------------------------------------------

  lemma {:induction false} FundedMembers(ids: seq<AccountId>, stacks: map<AccountId, int>)
    requires Distinct(ids)
    ensures var f := Funded(ids, stacks);
            && Distinct(f) && |f| <= |ids|
            && (forall account :: account in f <==> account in ids && StackOf(stacks, account) > 0)
  {
    if ids != [] {
      var rest, last := ids[..|ids| - 1], ids[|ids| - 1];
      FundedMembers(rest, stacks);
      assert ids == rest + [last] && last !in rest;
      assert Funded(ids, stacks) == Funded(rest, stacks) + if StackOf(stacks, last) > 0 then [last] else [];
    }
  }

  lemma SeatOf(ids: seq<AccountId>, i: nat)
    requires i < |ids| && Distinct(ids)
    ensures PlayerIndex(ids, ids[i]) == Some(i)
  {
  }

  lemma SumOneMore(stacks: map<AccountId, int>, ids: seq<AccountId>, last: AccountId)
    ensures Sum(StacksOf(stacks, ids + [last])) == Sum(StacksOf(stacks, ids)) + StackOf(stacks, last)
  {
    assert StacksOf(stacks, ids + [last])[..|ids|] == StacksOf(stacks, ids);
  }

  /** Chips held by a selection that contains everybody with chips are all the chips there are. */
  lemma {:induction false} FundedSum(ids: seq<AccountId>, chosen: map<AccountId, int>, stacks: map<AccountId, int>)
    requires forall account :: account in ids && StackOf(chosen, account) <= 0 ==> StackOf(stacks, account) == 0
    ensures Sum(StacksOf(stacks, Funded(ids, chosen))) == Sum(StacksOf(stacks, ids))
  {
    if ids != [] {
      var rest, last := ids[..|ids| - 1], ids[|ids| - 1];
      FundedSum(rest, chosen, stacks);
      assert ids == rest + [last];
      SumOneMore(stacks, rest, last);
      var f := Funded(rest, chosen);
      if StackOf(chosen, last) > 0 {
        assert Funded(ids, chosen) == f + [last];
        SumOneMore(stacks, f, last);
      } else {
        assert Funded(ids, chosen) == f + [] == f;
      }
    }
  }

  lemma {:induction false} DepositAt(stacks: map<AccountId, int>, ids: seq<AccountId>, finals: seq<int>)
    requires |ids| == |finals| && Distinct(ids)
    ensures var after := Deposit(stacks, ids, finals);
            && StacksOf(after, ids) == finals
            && (forall account :: account in after <==> account in stacks || account in ids)
            && (forall account :: account !in ids ==> StackOf(after, account) == StackOf(stacks, account))
  {
    if ids != [] {
      var n := |ids| - 1;
      DepositAt(stacks, ids[..n], finals[..n]);
      assert ids == ids[..n] + [ids[n]];
      var before := Deposit(stacks, ids[..n], finals[..n]);
      forall i | 0 <= i < n
        ensures StackOf(Deposit(stacks, ids, finals), ids[i]) == finals[i]
      {
        assert StacksOf(before, ids[..n])[i] == finals[..n][i];
      }
    }
  }

  // ---------------------------------------------------------------------------------------------
  // Button
  // ---------------------------------------------------------------------------------------------

  /** The first funded seat clockwise: everything between the index and it is out of chips. */
  lemma {:induction false} ButtonIsFirstFunded(ids: seq<AccountId>, active: seq<AccountId>, from: nat, left: nat)
    requires |ids| > 0
    ensures var r := ButtonFrom(ids, active, from, left);
            && (r.None? <==> forall i :: from <= i < from + left ==> Seat(ids, i) !in active)
            && (r.Some? ==> exists i :: from <= i < from + left && r.value == Seat(ids, i) && r.value in active
                                        && forall j :: from <= j < i ==> Seat(ids, j) !in active)
    decreases left
  {
    if left > 0 && Seat(ids, from) !in active {
      ButtonIsFirstFunded(ids, active, from + 1, left - 1);
    }
  }

  /** Going once around the table meets every seat. */
  lemma SeatReached(ids: seq<AccountId>, from: nat, account: AccountId) returns (i: nat)
    requires from < |ids| && account in ids
    ensures from <= i < from + |ids| && Seat(ids, i) == account
  {
    var seat :| 0 <= seat < |ids| && ids[seat] == account;
    i := if from <= seat then seat else seat + |ids|;
    WrapSeat(|ids|, i);
  }

  /** The button dealt to is the button account on display exactly when the indexed seat has chips. */
  lemma DealtButton(m: Match)
    requires Seats(m) && |Funded(m.playerIds, m.stacks)| > 0
    ensures var active := Funded(m.playerIds, m.stacks);
            var button := ButtonFrom(m.playerIds, active, m.buttonIndex, |m.playerIds|);
            var displayed := m.playerIds[m.buttonIndex];
            && button.Some? && button.value in active
            && (button.value == displayed <==> StackOf(m.stacks, displayed) > 0)
  {
    var active := Funded(m.playerIds, m.stacks);
    FundedMembers(m.playerIds, m.stacks);
    ButtonIsFirstFunded(m.playerIds, active, m.buttonIndex, |m.playerIds|);
    var i := SeatReached(m.playerIds, m.buttonIndex, active[0]);
    WrapSeat(|m.playerIds|, m.buttonIndex);
    assert Seat(m.playerIds, m.buttonIndex) == m.playerIds[m.buttonIndex];
  }

  // ---------------------------------------------------------------------------------------------
  // Every operation keeps the invariant
  // ---------------------------------------------------------------------------------------------

  lemma {:induction false} FundedAll(ids: seq<AccountId>, stacks: map<AccountId, int>)
    requires forall i :: 0 <= i < |ids| ==> StackOf(stacks, ids[i]) > 0
    ensures Funded(ids, stacks) == ids
  {
    if ids != [] {
      var rest, last := ids[..|ids| - 1], ids[|ids| - 1];
      FundedAll(rest, stacks);
      assert Funded(ids, stacks) == rest + [last] == ids;
    }
  }

  /** A new match is ready for its first hand and holds players times starting chips. */
  lemma NewMatchInv(ids: seq<AccountId>, rules: RoomRules, buttonIndex: int)
    requires ValidRules(rules) && NewMatch(ids, rules, buttonIndex).Ok?
    ensures var m := NewMatch(ids, rules, buttonIndex).value;
            MatchInv(m) && TotalChips(m) == rules.startingChips * |ids|
  {
    NewMatchChips(ids, rules.startingChips);
    hide Sum, Funded, StacksOf;
    FundedAll(ids, NewMatch(ids, rules, buttonIndex).value.stacks);
  }

  lemma NewMatchChips(ids: seq<AccountId>, chips: int)
    ensures Sum(StacksOf(map account | account in ids :: chips, ids)) == chips * |ids|
  {
    SumConstant(StacksOf(map account | account in ids :: chips, ids), chips);
  }

  /** The next hand is on the table and nothing else has changed. */
  predicate NextDealt(m: Match, after: Match) {
    && after.status.Active? && after.hand.Some? && after.hand.value.quit.None?
    && after.stacks == m.stacks && after.playerIds == m.playerIds && after.rules == m.rules
    && after.buttonIndex == m.buttonIndex && after.handNumber == m.handNumber + 1
  }

  /**
   * Between hands of an active match nothing can stop the next deal: every check of the hand's constructor
   * holds, the dealt button is seated, and no chip moves.
   */
  lemma StartHandSucceeds(kit: PokerKit, m: Match)
    requires Lawful(kit) && MatchInv(m) && m.hand.None? && m.status.Active?
    ensures var (after, error) := StartHand(kit, m);
            error.None? && MatchInv(after) && NextDealt(m, after)
  {
    hide Lawful, Funded, ButtonFrom, AmountsFor, ValidSeating, ValidConfig, HandConfigFor, CreateHand, MatchInv,
         ValidHand, StacksOf;
    NextDealValid(m);
    NotEmpty(m);
    var active := Funded(m.playerIds, m.stacks);
    var button := ButtonFrom(m.playerIds, active, m.buttonIndex, |m.playerIds|).value;
    var amounts := AmountsFor(m.rules, m.handNumber + 1);
    CreateHandDeals(kit, m.handNumber + 1, HandConfigFor(m.rules, amounts), active, StacksOf(m.stacks, active), button);
    var hand := CreateHand(kit, m.handNumber + 1, HandConfigFor(m.rules, amounts), active,
                           StacksOf(m.stacks, active), button).value;
    DealtInv(m, hand);
  }

  lemma NotEmpty(m: Match)
    requires MatchInv(m)
    ensures m.playerIds != []
  {
  }

  lemma DealtInv(m: Match, hand: Hand)
    requires MatchInv(m) && m.hand.None? && m.status.Active?
    requires ValidHand(hand) && hand.quit.None? && hand.accountIds == Funded(m.playerIds, m.stacks)
    requires hand.startingStacks == StacksOf(m.stacks, hand.accountIds)
    ensures MatchInv(m.(handPlayerIds := hand.accountIds, handNumber := m.handNumber + 1, hand := Some(hand),
                        handBlinds := Some(AmountsFor(m.rules, m.handNumber + 1))))
  {
    hide ValidHand, Funded, StacksOf, AmountsFor;
  }

  /** The next deal's configuration and seating pass every check. */
  lemma NextDealValid(m: Match)
    requires MatchInv(m) && m.hand.None? && m.status.Active?
    ensures var active := Funded(m.playerIds, m.stacks);
            var button := ButtonFrom(m.playerIds, active, m.buttonIndex, |m.playerIds|);
            && button.Some? && |active| >= 2
            && ValidConfig(HandConfigFor(m.rules, AmountsFor(m.rules, m.handNumber + 1)))
            && ValidSeating(active, StacksOf(m.stacks, active), button.value)
  {
    var active := Funded(m.playerIds, m.stacks);
    FundedMembers(m.playerIds, m.stacks);
    DealtButton(m);
    BlindsMonotone(m.rules, m.handNumber + 1, m.handNumber + 1);
    assert forall i :: 0 <= i < |active| ==> active[i] in active;
  }

  /** A valid seating is dealt, and every chip of it is on the table. */
  lemma CreateHandDeals(kit: PokerKit, shuffle: nat, config: HandConfig, ids: seq<AccountId>, stacks: seq<int>,
                        button: AccountId)
    requires Lawful(kit) && ValidConfig(config) && ValidSeating(ids, stacks, button)
    ensures var r := CreateHand(kit, shuffle, config, ids, stacks, button);
            r.Ok? && ValidHand(r.value) && r.value.quit.None?
            && r.value.accountIds == ids && r.value.startingStacks == stacks
  {
    var blinds := RawBlinds(|ids|, PlayerIndex(ids, button).value, config.smallBlind, config.bigBlind);
    assert Dealt(kit.deal(shuffle, config, blinds, stacks), stacks);
  }

  /** An accepted action keeps the invariant and moves no chip between players. */
  lemma ActInHandInv(kit: PokerKit, m: Match, c: ActionCommand)
    requires Lawful(kit) && MatchInv(m) && (m.hand.Some? ==> m.hand.value.quit.None?)
    ensures var r := ActInHand(kit, m, c);
            r.Ok? ==> MatchInv(r.value.0) && r.value.0 == m.(hand := r.value.0.hand)
                      && r.value.0.hand.Some? && r.value.0.hand.value.quit.None?
  {
    if m.hand.Some? {
      ApplyActionValid(kit, m.hand.value, c);
    }
  }

  /** A quit completes the hand, whoever's turn it is. */
  lemma QuitHandInv(m: Match, account: AccountId)
    requires MatchInv(m) && (m.hand.Some? ==> m.hand.value.quit.None?)
    ensures var r := QuitHand(m, account);
            && (r.Ok? <==> account in m.handPlayerIds && m.hand.value.table.active)
            && (r.Ok? ==> MatchInv(r.value.0) && r.value.0 == m.(hand := r.value.0.hand)
                          && r.value.0.hand.Some? && r.value.0.hand.value.Complete()
                          && r.value.0.hand.value.quit.Some? && r.value.0.hand.value.table == m.hand.value.table)
  {
  }

  /** What a settled hand leaves unaccounted for: chips already collected when a quit ended it. */
  function LostChips(h: Hand): int {
    if h.quit.Some? then h.table.collected else 0
  }

  /** Depositing final stacks on the dealt seats: who is funded can only shrink, and the chips add up. */
  lemma DepositChips(m: Match, finals: seq<int>)
    requires MatchInv(m) && m.hand.Some? && |finals| == |m.handPlayerIds|
    requires forall i :: 0 <= i < |finals| ==> finals[i] >= 0
    ensures var after := Deposit(m.stacks, m.handPlayerIds, finals);
            && (forall account :: account in after <==> account in m.playerIds)
            && (forall account :: account in after ==> after[account] >= 0)
            && (forall account :: StackOf(m.stacks, account) <= 0 ==> StackOf(after, account) == 0)
            && Sum(StacksOf(after, m.playerIds)) == Sum(finals)
  {
    var dealt := m.handPlayerIds;
    FundedMembers(m.playerIds, m.stacks);
    DepositAt(m.stacks, dealt, finals);
    var after := Deposit(m.stacks, dealt, finals);
    FundedSum(m.playerIds, m.stacks, after);
    forall account | account in after
      ensures after[account] >= 0
    {
      if account in dealt {
        var i :| 0 <= i < |dealt| && dealt[i] == account;
        assert StacksOf(after, dealt)[i] == finals[i];
      } else {
        assert StackOf(after, account) == StackOf(m.stacks, account);
      }
    }
  }

  /** The hand is gone, its lost chips with it, and nobody who was out of chips has any now. */
  ghost predicate HandSettled(m: Match, after: Match)
    requires m.hand.Some?
  {
    && after.hand.None?
    && after.rules == m.rules && after.playerIds == m.playerIds && after.handNumber == m.handNumber
    && TotalChips(after) == TotalChips(m) - LostChips(m.hand.value)
    && (forall account :: StackOf(m.stacks, account) <= 0 ==> StackOf(after.stacks, account) == 0)
  }

  /** Settling a complete hand never fails, and takes exactly the lost chips out of the match. */
  lemma SettleHandInv(m: Match)
    requires MatchInv(m) && m.hand.Some? && m.hand.value.Complete()
    ensures var r := SettleHand(m);
            && r.Ok?
            && var after := r.value.0;
            && MatchInv(after) && HandSettled(m, after)
            && (after.status.Complete? <==> MatchIsComplete(after))
            && after.buttonIndex == NextSeat(m.buttonIndex, |m.playerIds|)
            && r.value.1 == Settle(m.hand.value).value
  {
    var finals := Settle(m.hand.value).value.finalStacks;
    SettlementChips(m.hand.value);
    DepositChips(m, finals);
    FundedSum(m.playerIds, m.stacks, m.stacks);
    var settled := AfterHand(m, finals);
    CompleteIgnoresStatus(settled);
    assert Seats(settled);
  }

  lemma CompleteIgnoresStatus(m: Match)
    ensures MatchIsComplete(m.(status := Complete)) == MatchIsComplete(m)
    ensures Seats(m.(status := Complete)) == Seats(m)
  {
  }

  /** Ending a hand by quitting conserves the match's chips exactly when no pot had been collected yet. */
  lemma QuitConservesIff(m: Match, account: AccountId)
    requires MatchInv(m) && m.hand.Some? && m.hand.value.quit.None?
    requires account in m.handPlayerIds && m.hand.value.table.active
    ensures QuitHand(m, account).Ok? && SettleHand(QuitHand(m, account).value.0).Ok?
    ensures TotalChips(SettleHand(QuitHand(m, account).value.0).value.0) == TotalChips(m) <==>
            m.hand.value.table.collected == 0
  {
    QuitHandInv(m, account);
    SettleHandInv(QuitHand(m, account).value.0);
  }

  lemma PairSum(a: int, b: int)
    ensures Sum([a, b]) == a + b
  {
    assert [a, b][..1] == [a] && [a][..0] == [];
    assert Sum([a]) == Sum([a][..0]) + a;
  }

  lemma PairFunded(a: AccountId, b: AccountId, stacks: map<AccountId, int>)
    requires StackOf(stacks, a) > 0 && StackOf(stacks, b) > 0
    ensures Funded([a, b], stacks) == [a, b]
  {
    FundedAll([a, b], stacks);
  }

  lemma SameTotals(m: Match, next: Match)
    requires next.stacks == m.stacks && next.playerIds == m.playerIds
    ensures TotalChips(next) == TotalChips(m)
  {
  }

  /** A funded seat means chips in play. */
  lemma FundedHoldsChips(ids: seq<AccountId>, stacks: map<AccountId, int>)
    requires Distinct(ids) && Funded(ids, stacks) != []
    requires forall account :: account in stacks ==> stacks[account] >= 0
    ensures Sum(StacksOf(stacks, ids)) > 0
  {
    FundedMembers(ids, stacks);
    var account := Funded(ids, stacks)[0];
    assert account in Funded(ids, stacks);
    var i :| 0 <= i < |ids| && ids[i] == account;
    SumNonNegative(StacksOf(stacks, ids));
    assert StacksOf(stacks, ids)[i] > 0;
  }

  /** Without chips in play there is no funded seat, so the match is complete. */
  lemma BrokeMatchEnds(m: Match)
    requires MatchInv(m) && TotalChips(m) == 0
    ensures MatchIsComplete(m)
  {
    if Funded(m.playerIds, m.stacks) != [] {
      FundedHoldsChips(m.playerIds, m.stacks);
    }
  }
}
