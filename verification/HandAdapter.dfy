/** The adapter object: one hand's table and, once somebody quits, the settlement that ended it. */
module HandAdapter {
  import opened Prelude
  import opened PokerHand

  class PokerKitAdapter {
    const kit: PokerKit
    const accountIds: seq<AccountId>
    const startingStacks: seq<int>
    var table: Table
    var quitSettlement: Option<Settlement>
    var quitPlayerIndex: Option<nat>

    constructor (kit: PokerKit, table: Table, accountIds: seq<AccountId>, startingStacks: seq<int>)
      ensures this.kit == kit && Coherent() && State() == Hand(table, accountIds, startingStacks, None)
    {
      this.kit := kit;
      this.table := table;
      this.accountIds := accountIds;
      this.startingStacks := startingStacks;
      this.quitSettlement := None;
      this.quitPlayerIndex := None;
    }

    function State(): Hand
      reads this
    {
      Hand(table, accountIds, startingStacks,
           if quitSettlement.Some? && quitPlayerIndex.Some?
           then Some(QuitRecord(quitSettlement.value, quitPlayerIndex.value)) else None)
    }

    /** The two quit fields are written together. */
    predicate Coherent()
      reads this
    {
      quitSettlement.Some? <==> quitPlayerIndex.Some?
    }

    /** Seats filled in place: everybody starts at zero, then the two posting seats are set. */
    static method PostBlinds(n: nat, button: nat, small: int, big: int) returns (blinds: seq<int>)
      requires n >= 2 && button < n
      ensures blinds == RawBlinds(n, button, small, big)
    {
      if n == 2 {
        return seq(2, i => if i == button then big else small);
      }
      var seats := new int[n](_ => 0);
      seats[(button + 1) % n] := small;
      seats[(button + 2) % n] := big;
      blinds := seats[..];
    }

    static method Create(kit: PokerKit, shuffle: nat, config: HandConfig, ids: seq<AccountId>, stacks: seq<int>,
                         button: AccountId) returns (r: Result<PokerKitAdapter, HandError>)
      ensures var spec := CreateHand(kit, shuffle, config, ids, stacks, button);
              && (r.Ok? <==> spec.Ok?)
              && (r.Ok? ==> fresh(r.value) && r.value.kit == kit && r.value.Coherent() && r.value.State() == spec.value)
              && (r.Err? ==> r.error == spec.error)
    {
      if !ValidConfig(config) {
        return Err(BadHandConfig);
      }
      if !ValidSeating(ids, stacks, button) {
        return Err(BadSeating);
      }
      var blinds := PostBlinds(|ids|, PlayerIndex(ids, button).value, config.smallBlind, config.bigBlind);
      var adapter := new PokerKitAdapter(kit, kit.deal(shuffle, config, blinds, stacks), ids, stacks);
      r := Ok(adapter);
    }

    method Act(c: ActionCommand) returns (r: Result<AppliedAction, HandError>)
      modifies this`table
      ensures var spec := ApplyAction(kit, old(State()), c);
              && (spec.Ok? ==> State() == spec.value.0 && r == Ok(spec.value.1))
              && (spec.Err? ==> State() == old(State()) && r == Err(spec.error))
    {
      var index := PlayerIndex(accountIds, c.accountId);
      if index.None? {
        return Err(UnknownPlayer);
      }
      if c.action.Show? || c.action.Muck? {
        if table.showdown != index || c.amount.Some? || !kit.canShow(table, c.action.Show?) {
          return Err(InvalidAction);
        }
        table := kit.show(table, c.action.Show?);
        return Ok(AppliedAction(c.accountId, c.action, None));
      }
      if table.actor != index {
        return Err(NotCurrentActor);
      }
      match c.action
      case Fold =>
        if c.amount.Some? || !table.canFold {
          return Err(InvalidAction);
        }
        table := kit.fold(table);
        r := Ok(AppliedAction(c.accountId, Fold, None));
      case CheckOrCall =>
        var expected := table.callAmount;
        if expected.None? || (c.amount.Some? && c.amount != expected) {
          return Err(InvalidAction);
        }
        table := kit.checkOrCall(table);
        r := Ok(AppliedAction(c.accountId, CheckOrCall, expected));
      case BetOrRaise =>
        if c.amount.None? || !kit.canRaise(table, c.amount.value) {
          return Err(InvalidAction);
        }
        table := kit.raise(table, c.amount.value);
        r := Ok(AppliedAction(c.accountId, BetOrRaise, c.amount));
    }

    /** Walks the other seats in order, handing each its share of the forfeited value. */
    static method HandOut(own: seq<int>, q: nat, quotient: int, remainder: int)
      returns (finals: seq<int>, shares: seq<int>)
      requires q < |own| && |own| >= 2
      ensures shares == Shares(|own|, q, quotient, remainder)
      ensures |finals| == |own|
      ensures forall i :: 0 <= i < |own| ==> finals[i] == (if i == q then 0 else own[i]) + shares[i]
    {
      var n := |own|;
      var recipients := seq(n - 1, k requires 0 <= k < n - 1 => if k < q then k else k + 1);
      var stacks := new int[n](i requires 0 <= i < n => own[i]);
      stacks[q] := 0;
      var payouts := new int[n](_ => 0);
      for order := 0 to n - 1
        invariant forall i :: 0 <= i < n ==>
                    payouts[i] == if i != q && RecipientOrder(q, i) < order
                                  then Shares(n, q, quotient, remainder)[i] else 0
        invariant forall i :: 0 <= i < n ==> stacks[i] == (if i == q then 0 else own[i]) + payouts[i]
      {
        var seat := recipients[order];
        payouts[seat] := quotient + if order < remainder then 1 else 0;
        stacks[seat] := stacks[seat] + payouts[seat];
      }
      finals, shares := stacks[..], payouts[..];
    }

    static method SplitForfeited(t: Table, starting: seq<int>, q: nat) returns (s: Settlement)
      requires |t.stacks| == |t.bets| == |starting| >= 2 && q < |starting|
      ensures s == QuitSettlement(t, starting, q)
    {
      hide Shares;
      var n := |starting|;
      var own := seq(n, i requires 0 <= i < n => t.stacks[i] + t.bets[i]);
      var finals, shares := HandOut(own, q, own[q] / (n - 1), own[q] % (n - 1));
      assert shares[q] == 0 by { QuitterUnpaid(n, q, own[q] / (n - 1), own[q] % (n - 1)); }
      s := Settlement(finals, seq(n, i requires 0 <= i < n => finals[i] - starting[i]), t.bets,
                      [Pot(own[q], seq(n - 1, k requires 0 <= k < n - 1 => if k < q then k else k + 1), shares)]);
      assert finals == SplitSettlement(t, starting, q, shares).finalStacks;
    }

    static lemma QuitterUnpaid(n: nat, q: nat, quotient: int, remainder: int)
      requires q < n
      ensures Shares(n, q, quotient, remainder)[q] == 0
    {
    }

    method Quit(account: AccountId) returns (r: Result<Settlement, HandError>)
      requires Coherent()
      modifies this`quitSettlement, this`quitPlayerIndex
      ensures Coherent()
      ensures var spec := QuitPlayer(old(State()), account);
              && (spec.Ok? ==> State() == spec.value.0 && r == Ok(spec.value.1))
              && (spec.Err? ==> State() == old(State()) && r == Err(spec.error))
    {
      if quitSettlement.Some? || !table.active {
        return Err(InvalidAction);
      }
      var index := PlayerIndex(accountIds, account);
      if index.None? {
        return Err(UnknownPlayer);
      }
      var n := |accountIds|;
      if n < 2 || |startingStacks| != n || |table.stacks| != n || |table.bets| != n {
        return Err(InvalidAction);
      }
      var settlement := SplitForfeited(table, startingStacks, index.value);
      quitSettlement := Some(settlement);
      quitPlayerIndex := index;
      r := Ok(settlement);
    }
  }
}
