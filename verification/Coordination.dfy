/** The coordinator object: one match's seats, stacks and current hand, updated in place. */
module Coordination {
  import opened Prelude
  import opened Blinds
  import opened PokerHand
  import opened HandAdapter
  import opened MatchState

  class MatchCoordinator {
    const kit: PokerKit
    const playerIds: seq<AccountId>
    const rules: RoomRules
    var buttonIndex: nat
    var stacks: map<AccountId, int>
    var handNumber: nat
    var hand: PokerKitAdapter?
    var handPlayerIds: seq<AccountId>
    var handBlinds: Option<BlindAmounts>
    var status: MatchStatus

    constructor (kit: PokerKit, playerIds: seq<AccountId>, rules: RoomRules, buttonIndex: nat)
      requires NewMatch(playerIds, rules, buttonIndex).Ok?
      ensures this.kit == kit && hand == null && Linked()
      ensures State() == NewMatch(playerIds, rules, buttonIndex).value
    {
      this.kit := kit;
      this.playerIds := playerIds;
      this.rules := rules;
      this.buttonIndex := buttonIndex;
      this.stacks := map account | account in playerIds :: rules.startingChips;
      this.handNumber := 0;
      this.hand := null;
      this.handPlayerIds := [];
      this.handBlinds := None;
      this.status := Active;
    }

    function State(): Match
      reads this, hand
    {
      Match(rules, playerIds, buttonIndex, stacks, handNumber,
            if hand == null then None else Some(hand.State()),
            handPlayerIds, handBlinds, status)
    }

    ghost predicate Linked()
      reads this, hand
    {
      hand != null ==> hand.kit == kit && hand.Coherent()
    }

    /** The seats with chips, gathered in seat order. */
    method FundedSeats() returns (active: seq<AccountId>)
      ensures active == Funded(playerIds, stacks)
    {
      active := [];
      for i := 0 to |playerIds|
        invariant active == Funded(playerIds[..i], stacks)
      {
        assert playerIds[..i + 1][..i] == playerIds[..i];
        if StackOf(stacks, playerIds[i]) > 0 {
          active := active + [playerIds[i]];
        }
      }
      assert playerIds[..|playerIds|] == playerIds;
    }

    /** Looks at each seat once, clockwise from the button index. */
    method NextActiveButton(active: seq<AccountId>) returns (button: Option<AccountId>)
      requires playerIds != []
      ensures button == ButtonFrom(playerIds, active, buttonIndex, |playerIds|)
    {
      for offset := 0 to |playerIds|
        invariant ButtonFrom(playerIds, active, buttonIndex, |playerIds|)
                  == ButtonFrom(playerIds, active, buttonIndex + offset, |playerIds| - offset)
      {
        var candidate := playerIds[(buttonIndex + offset) % |playerIds|];
        if candidate in active {
          return Some(candidate);
        }
      }
      button := None;
    }

    method StartHand() returns (error: Option<MatchError>)
      requires Linked()
      modifies this
      ensures Linked()
      ensures (State(), error) == MatchState.StartHand(kit, old(State()))
      ensures hand == old(hand) || fresh(hand)
    {
      if status.Complete? {
        return Some(MatchOver);
      }
      if hand != null {
        return Some(HandUnsettled);
      }
      var active := FundedSeats();
      if |active| < 2 || playerIds == [] {
        status := Complete;
        return Some(NotEnoughPlayers);
      }
      var button := NextActiveButton(active);
      if button.None? {
        return Some(NoActiveButton);
      }
      var amounts := AmountsFor(rules, handNumber + 1);
      handPlayerIds := active;
      handBlinds := Some(amounts);
      handNumber := handNumber + 1;
      var created := PokerKitAdapter.Create(
        kit, handNumber, HandConfigFor(rules, amounts), active, StacksOf(stacks, active), button.value);
      match created
      case Err(e) =>
        error := Some(HandRefused(e));
      case Ok(adapter) =>
        hand := adapter;
        error := None;
    }

    method ApplyAction(c: ActionCommand) returns (r: Result<AppliedAction, MatchError>)
      requires Linked()
      modifies hand
      ensures Linked()
      ensures var spec := ActInHand(kit, old(State()), c);
              && (spec.Ok? ==> State() == spec.value.0 && r == Ok(spec.value.1))
              && (spec.Err? ==> State() == old(State()) && r == Err(spec.error))
    {
      if hand == null {
        return Err(NoHand);
      }
      var applied := hand.Act(c);
      r := match applied case Ok(a) => Ok(a) case Err(e) => Err(HandRefused(e));
    }

    method QuitPlayer(account: AccountId) returns (r: Result<Settlement, MatchError>)
      requires Linked()
      modifies hand
      ensures Linked()
      ensures var spec := QuitHand(old(State()), account);
              && (spec.Ok? ==> State() == spec.value.0 && r == Ok(spec.value.1))
              && (spec.Err? ==> State() == old(State()) && r == Err(spec.error))
    {
      if account !in handPlayerIds {
        return Err(NotSeatedInHand);
      }
      if hand == null {
        return Err(NoHand);
      }
      var settlement := hand.Quit(account);
      r := match settlement case Ok(s) => Ok(s) case Err(e) => Err(HandRefused(e));
    }

    /** Writes each dealt seat's final stack back, clears the hand and moves the button. */
    method SettleHand() returns (r: Result<Settlement, MatchError>)
      requires Linked()
      modifies this
      ensures Linked()
      ensures var spec := MatchState.SettleHand(old(State()));
              && (spec.Ok? ==> State() == spec.value.0 && r == Ok(spec.value.1) && hand == null)
              && (spec.Err? ==> State() == old(State()) && r == Err(spec.error) && hand == old(hand))
    {
      if hand == null {
        return Err(NoHand);
      }
      var settlement := Settle(hand.State());
      if settlement.Err? {
        return Err(HandRefused(settlement.error));
      }
      var finals := settlement.value.finalStacks;
      if |finals| != |handPlayerIds| || playerIds == [] {
        return Err(StackCountMismatch);
      }
      ghost var before := State();
      for i := 0 to |finals|
        invariant hand == old(hand) && handPlayerIds == before.handPlayerIds && buttonIndex == before.buttonIndex
        invariant handNumber == before.handNumber && status == before.status
        invariant stacks == Deposit(before.stacks, handPlayerIds[..i], finals[..i])
      {
        assert handPlayerIds[..i + 1][..i] == handPlayerIds[..i] && finals[..i + 1][..i] == finals[..i];
        stacks := stacks[handPlayerIds[i] := finals[i]];
      }
      assert handPlayerIds[..|finals|] == handPlayerIds && finals[..|finals|] == finals;
      hand := null;
      handPlayerIds := [];
      handBlinds := None;
      buttonIndex := (buttonIndex + 1) % |playerIds|;
      assert State() == AfterHand(before, finals);
      if MatchIsComplete(State()) {
        status := Complete;
      }
      r := Ok(settlement.value);
    }
  }
}
