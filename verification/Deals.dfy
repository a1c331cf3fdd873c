/** What every hand of a match is dealt with: number, blinds, button and stacks. */
module Deals {
  import opened Prelude
  import opened Blinds
  import opened PokerHand
  import opened MatchState
  import opened ActorState
  import opened ActorApply
  import opened ActorRuns
  import opened ActorTheorems
  import opened BustedButton

  /** Going clockwise from the button index, at most once around, seat k is the first that has chips. */
  predicate FirstWithChips(m: Match, k: nat)
    requires m.playerIds != []
  {
    && m.buttonIndex <= k < m.buttonIndex + |m.playerIds| && StackOf(m.stacks, Seat(m.playerIds, k)) > 0
    && forall j :: m.buttonIndex <= j < k ==> StackOf(m.stacks, Seat(m.playerIds, j)) <= 0
  }

  /** One account sits before another. */
  predicate SitsBefore(ids: seq<AccountId>, a: AccountId, b: AccountId) {
    exists s, t :: 0 <= s < t < |ids| && ids[s] == a && ids[t] == b
  }

  /** Everybody who has chips, in seat order. */
  ghost predicate InSeatOrder(m: Match, dealt: seq<AccountId>) {
    && (forall account :: account in dealt <==> account in m.playerIds && StackOf(m.stacks, account) > 0)
    && (forall i, j :: 0 <= i < j < |dealt| ==> SitsBefore(m.playerIds, dealt[i], dealt[j]))
  }

  /** Small blind one place after the button and big blind two; heads-up the library takes them the other way round. */
  predicate BlindsPosted(blinds: seq<int>, n: nat, button: nat, small: int, big: int)
    requires n >= 2
  {
    && |blinds| == n
    && forall i :: 0 <= i < n ==>
         blinds[i] ==
         if n == 2 then (if i == button then big else small)
         else if i == (button + 1) % n then small
         else if i == (button + 2) % n then big
         else 0
  }

  /** A blind of the first interval of hands, doubled once for every full interval before the hand. */
  function BlindAt(first: int, interval: pos, handNumber: pos): int {
    if handNumber <= interval then first else 2 * BlindAt(first, interval, handNumber - interval)
  }

  ghost predicate DealtWith(kit: PokerKit, m: Match, k: nat, button: nat, blinds: seq<int>)
    requires m.hand.Some? && m.playerIds != [] && m.handNumber >= 1
  {
    var h := m.hand.value;
    var n := |h.accountIds|;
    var interval := m.rules.blindIncreaseEveryHands;
    var small, big := BlindAt(m.rules.smallBlind, interval, m.handNumber), BlindAt(m.rules.bigBlind, interval, m.handNumber);
    && n >= 2 && InSeatOrder(m, h.accountIds) && h.startingStacks == StacksOf(m.stacks, h.accountIds) && h.quit.None?
    && FirstWithChips(m, k) && button < n && h.accountIds[button] == Seat(m.playerIds, k)
    && BlindsPosted(blinds, n, button, small, big)
    && h.table == kit.deal(m.handNumber, HandConfig(m.rules.ante, small, big, m.rules.winnerMayShowHand), blinds,
                           h.startingStacks)
  }

  /**
   * The hand on the table is the library's own deal: to everybody who has chips, in seat order, with the blinds
   * of this hand number posted around the first funded seat clockwise from the button index.
   */
  ghost predicate DealtByTheRules(kit: PokerKit, m: Match) {
    && m.hand.Some? && m.playerIds != [] && m.handNumber >= 1
    && exists k: nat, button: nat, blinds: seq<int> :: DealtWith(kit, m, k, button, blinds)
  }

  /** The schedule in closed form is that doubling. */
  lemma {:induction false} AmountsDouble(rules: RoomRules, handNumber: pos)
    ensures var interval := rules.blindIncreaseEveryHands;
            AmountsFor(rules, handNumber) ==
            BlindAmounts(BlindAt(rules.smallBlind, interval, handNumber), BlindAt(rules.bigBlind, interval, handNumber))
    decreases handNumber
  {
    var interval := rules.blindIncreaseEveryHands;
    if handNumber <= interval {
      DivisionUnique(handNumber - 1, interval, 0, handNumber - 1);
      assert Pow2(0) == 1;
    } else {
      AmountsDouble(rules, handNumber - interval);
      BlindsDouble(rules, handNumber - interval);
    }
  }

  lemma {:induction false} FundedSeats(ids: seq<AccountId>, stacks: map<AccountId, int>, i: nat, j: nat)
    requires i < j < |Funded(ids, stacks)|
    ensures SitsBefore(ids, Funded(ids, stacks)[i], Funded(ids, stacks)[j])
  {
    var n := |ids| - 1;
    if j < |Funded(ids[..n], stacks)| {
      FundedSeats(ids[..n], stacks, i, j);
      var s, t :| 0 <= s < t < n && ids[..n][s] == Funded(ids[..n], stacks)[i] && ids[..n][t] == Funded(ids[..n], stacks)[j];
      assert ids[s] == Funded(ids, stacks)[i] && ids[t] == Funded(ids, stacks)[j];
    } else {
      var s := FundedAt(ids[..n], stacks, i);
      assert ids[s] == Funded(ids, stacks)[i] && ids[n] == Funded(ids, stacks)[j];
    }
  }

  lemma {:induction false} FundedAt(ids: seq<AccountId>, stacks: map<AccountId, int>, i: nat) returns (s: nat)
    requires i < |Funded(ids, stacks)|
    ensures s < |ids| && ids[s] == Funded(ids, stacks)[i]
  {
    var n := |ids| - 1;
    if i < |Funded(ids[..n], stacks)| {
      s := FundedAt(ids[..n], stacks, i);
    } else {
      s := n;
    }
  }

  lemma FundedInSeatOrder(m: Match)
    requires Distinct(m.playerIds)
    ensures InSeatOrder(m, Funded(m.playerIds, m.stacks))
  {
    FundedMembers(m.playerIds, m.stacks);
    hide Funded, Distinct;
    var ids, dealt := m.playerIds, Funded(m.playerIds, m.stacks);
    forall i, j | 0 <= i < j < |dealt|
      ensures SitsBefore(ids, dealt[i], dealt[j])
    {
      FundedSeats(ids, m.stacks, i, j);
    }
  }

  lemma RawAsPosted(n: nat, button: nat, small: int, big: int)
    requires n >= 2 && button < n
    ensures BlindsPosted(RawBlinds(n, button, small, big), n, button, small, big)
  {
    RawBlindsPosted(n, button, small, big);
  }

  /** The button found is the first seat with chips. */
  lemma ButtonPlace(m: Match) returns (k: nat)
    requires m.playerIds != [] && InSeatOrder(m, Funded(m.playerIds, m.stacks))
    requires ButtonFrom(m.playerIds, Funded(m.playerIds, m.stacks), m.buttonIndex, |m.playerIds|).Some?
    ensures FirstWithChips(m, k)
    ensures Seat(m.playerIds, k) ==
            ButtonFrom(m.playerIds, Funded(m.playerIds, m.stacks), m.buttonIndex, |m.playerIds|).value
    ensures Seat(m.playerIds, k) in Funded(m.playerIds, m.stacks)
  {
    var ids, active := m.playerIds, Funded(m.playerIds, m.stacks);
    ButtonIsFirstFunded(ids, active, m.buttonIndex, |ids|);
    k :| m.buttonIndex <= k < m.buttonIndex + |ids| && ButtonFrom(ids, active, m.buttonIndex, |ids|).value == Seat(ids, k)
         && Seat(ids, k) in active && forall j :: m.buttonIndex <= j < k ==> Seat(ids, j) !in active;
    hide Funded;
    forall j | m.buttonIndex <= j < k ensures StackOf(m.stacks, Seat(ids, j)) <= 0 {
      assert Seat(ids, j) in ids;
    }
  }

  /** A deal that succeeds is by the rules. */
  lemma StartDealsByTheRules(kit: PokerKit, m: Match)
    requires Lawful(kit) && MatchInv(m) && m.hand.None? && m.status.Active?
    ensures DealtByTheRules(kit, StartHand(kit, m).0)
  {
    StartHandSucceeds(kit, m);
    NotEmpty(m);
    NextDealValid(m);
    PlayersDistinct(m);
    FundedInSeatOrder(m);
    var after := StartHand(kit, m).0;
    var active := Funded(m.playerIds, m.stacks);
    var k := ButtonPlace(m);
    AmountsDouble(m.rules, after.handNumber);
    var button := PlayerIndex(active, Seat(m.playerIds, k)).value;
    var amounts := AmountsFor(m.rules, after.handNumber);
    RawAsPosted(|active|, button, amounts.small, amounts.big);
    hide MatchInv, Lawful, Funded, ButtonFrom, AmountsFor, BlindAt, Seat, RawBlinds, BlindsPosted, InSeatOrder, PlayerIndex;
    hide ValidConfig, ValidSeating, StackOf, FirstWithChips;
    SameSeats(m, after, k);
    assert DealtWith(kit, after, k, button, RawBlinds(|active|, button, amounts.small, amounts.big));
  }

  lemma PlayersDistinct(m: Match)
    requires MatchInv(m)
    ensures Distinct(m.playerIds)
  {
  }

  lemma SameSeats(m: Match, after: Match, k: nat)
    requires NextDealt(m, after) && m.playerIds != [] && FirstWithChips(m, k)
    requires InSeatOrder(m, Funded(m.playerIds, m.stacks))
    ensures FirstWithChips(after, k) && InSeatOrder(after, Funded(m.playerIds, m.stacks))
  {
  }

  // ---------------------------------------------------------------------------------------------
  // Every deal of a run
  // ---------------------------------------------------------------------------------------------

  /** A new hand number means a new deal, by the rules. */
  ghost predicate DealsByTheRules(kit: PokerKit, s: Actor, t: Actor) {
    t.game.handNumber != s.game.handNumber ==> DealtByTheRules(kit, t.game)
  }

  lemma FinishDealsByTheRules(kit: PokerKit, s: Actor, c: MatchCommand, applied: AppliedAction)
    requires Lawful(kit) && MatchInv(s.game) && s.game.hand.Some? && s.game.hand.value.Complete()
    requires s.handId == Some(s.game.handNumber) && s.terminal.None?
    ensures DealsByTheRules(kit, s, FinishHand(kit, s, c, applied).0)
  {
    hide MatchInv, SettleHand, StartHand, Lawful, Hand.Complete, FinishHand, DealtByTheRules;
    SettleHandInv(s.game);
    FinishHandInv(kit, s, c, applied);
    FinishDeals(kit, s, c, applied);
    var game := SettleHand(s.game).value.0;
    if game.status.Active? {
      StartDealsByTheRules(kit, game);
    }
  }

  lemma ApplyDealsByTheRules(kit: PokerKit, s: Actor, c: MatchCommand)
    requires Lawful(kit) && ActorInv(s)
    ensures DealsByTheRules(kit, s, Apply(kit, s, c).0)
  {
    HandIds(s);
    GameValid(s);
    hide ActorInv, MatchInv, Lawful, Advance, FinishHand, PublicView, DealtByTheRules, Advanced;
    ApplyAllOrNothing(kit, s, c);
    if Apply(kit, s, c).1.Ok? {
      AppliedWasAimed(s, Apply(kit, s, c).0, c, Apply(kit, s, c).1.value);
      hide AppliedOnce;
      AdvanceInv(kit, s.game, c);
      var (game, applied) := Advance(kit, s.game, c).value;
      AdvancedGame(s.game, game, c);
      if game.hand.value.Complete() {
        FinishDealsByTheRules(kit, Logged(s, game, PublicView(s.game.hand.value).street, applied), c, applied);
      }
    }
  }

  lemma AdvancedGame(m: Match, next: Match, c: MatchCommand)
    requires Advanced(m, next, c)
    ensures MatchInv(next) && next.hand.Some? && next.handNumber == m.handNumber
  {
    hide MatchInv;
  }

  lemma StepDealsByTheRules(kit: PokerKit, w: World, e: Event)
    requires Lawful(kit) && WorldInv(w)
    ensures DealsByTheRules(kit, w.actor, Step(kit, w, e).actor)
  {
    hide ActorInv, Journal, QueueAgrees, Recorded, Versioned, Answered, Lawful, Apply, DealtByTheRules;
    if e.TakeNext? && w.actor.queue != [] && w.actor.delivering.None? {
      var s, c := w.actor.(queue := w.actor.queue[1..]), w.actor.queue[0].command;
      ActorFrame(w.actor, s);
      ApplyDealsByTheRules(kit, s, c);
    }
  }

  /** In every run each hand, from the first on, is dealt by the rules. */
  lemma EveryDealByTheRules(kit: PokerKit, game: Match, states: seq<World>, events: seq<Event>, i: nat)
    requires MatchRun(kit, game, states, events) && i < |states|
    requires i == 0 || states[i].actor.game.handNumber != states[i - 1].actor.game.handNumber
    ensures DealtByTheRules(kit, states[i].actor.game)
  {
    hide MatchRun, WorldInv, Step, DealtByTheRules, Lawful, Ready;
    if i == 0 {
      Opened(kit, game, states, events);
      OpeningDeal(kit, states[0].actor.matchId, game, states[0].actor.decisionTimeout);
    } else {
      RunLength(kit, game, states, events);
      RunInv(kit, game, states, events, i - 1);
      StepAt(kit, game, states, events, i - 1);
      StepDealsByTheRules(kit, states[i - 1], events[i - 1]);
    }
  }

  lemma OpeningDeal(kit: PokerKit, matchId: MatchId, game: Match, timeout: Option<int>)
    requires Lawful(kit) && Ready(game)
    ensures DealtByTheRules(kit, Opening(kit, matchId, game, timeout).actor.game)
  {
    hide Lawful, MatchInv, DealtByTheRules, StartHand;
    StartHandSucceeds(kit, game);
    StartDealsByTheRules(kit, game);
  }
}
