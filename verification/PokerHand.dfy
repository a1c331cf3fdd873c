/** One hand: the card library seen through its contract, and the adapter's rules on top of it. */
module PokerHand {
  import opened Prelude

  type AccountId = int

  datatype ActionType = Fold | CheckOrCall | BetOrRaise | Show | Muck

  datatype ActionCommand = ActionCommand(accountId: AccountId, action: ActionType, amount: Option<int>)

  datatype AppliedAction = AppliedAction(accountId: AccountId, action: ActionType, amount: Option<int>)

  datatype LegalAction = LegalAction(action: ActionType, minAmount: Option<int>, maxAmount: Option<int>)

  datatype HandConfig = HandConfig(ante: int, smallBlind: int, bigBlind: int, showdownChoice: bool)

  datatype Pot = Pot(amount: int, eligible: seq<nat>, payouts: seq<int>)

  datatype Settlement = Settlement(finalStacks: seq<int>, payoffs: seq<int>, contributions: seq<int>, pots: seq<Pot>)

  datatype Street = Preflop | Flop | Turn | River | Showdown | Settled

  datatype HandError =
    | UnknownPlayer
    | NotCurrentActor
    | InvalidAction
    | BadHandConfig
    | BadSeating
    | HandNotComplete

  // ---------------------------------------------------------------------------------------------
  // The card library, as an arbitrary implementation of its contract
  // ---------------------------------------------------------------------------------------------

  /** What the adapter reads of the library's state. `collected` is what already went into pots. */
  datatype Table = Table(
    stacks: seq<int>,
    bets: seq<int>,
    collected: int,
    standing: seq<bool>,
    active: bool,
    actor: Option<nat>,
    showdown: Option<nat>,
    canFold: bool,
    callAmount: Option<int>,
    raiseRange: Option<(int, int)>,
    street: Street,
    potAmounts: seq<int>,
    payoffs: seq<int>,
    contributions: seq<int>,
    pots: seq<Pot>)
  {
    function Turn(): Option<nat> {
      if actor.Some? then actor else showdown
    }

    predicate Turns(seat: Option<nat>) {
      seat.Some? && (actor == seat || showdown == seat)
    }
  }

  /** The library's operations; `deal` takes the number of the shuffle it draws, and the raw blinds per seat. */
  datatype PokerKit = PokerKit(
    deal: (nat, HandConfig, seq<int>, seq<int>) -> Table,
    fold: Table -> Table,
    checkOrCall: Table -> Table,
    canRaise: (Table, int) -> bool,
    raise: (Table, int) -> Table,
    canShow: (Table, bool) -> bool,
    show: (Table, bool) -> Table)

  function Chips(t: Table): int {
    Sum(t.stacks) + Sum(t.bets) + t.collected
  }

  /** A well-formed state for n seats; a finished hand has paid out everything and waits for nobody. */
  ghost predicate Seated(t: Table, n: nat) {
    && |t.stacks| == |t.bets| == |t.standing| == n
    && (forall i :: 0 <= i < n ==> t.stacks[i] >= 0)
    && (forall i :: 0 <= i < n ==> t.bets[i] >= 0)
    && t.collected >= 0
    && (t.actor.Some? ==> t.actor.value < n && t.canFold && t.showdown.None?)
    && (t.callAmount.Some? ==> t.callAmount.value >= 0)
    && (t.showdown.Some? ==> t.showdown.value < n)
    && (!t.active ==> t.Turn().None? && t.collected == 0 && forall i :: 0 <= i < n ==> t.bets[i] == 0)
  }

  ghost predicate Follows(t: Table, next: Table) {
    Seated(next, |t.stacks|) && Chips(next) == Chips(t)
  }

  /** Nobody's stack goes down but the payer's, and that by no more than the cost; it may well go up. */
  predicate PaysAtMost(stacks: seq<int>, after: seq<int>, payer: Option<nat>, cost: int) {
    && |after| == |stacks|
    && forall i :: 0 <= i < |stacks| ==> after[i] >= stacks[i] - if payer == Some(i) then cost else 0
  }

  /** A well-formed state follows, with the same chips, and what the actor paid for it is bounded. */
  ghost predicate FollowsFor(t: Table, next: Table, cost: int) {
    Follows(t, next) && PaysAtMost(t.stacks, next.stacks, t.actor, cost)
  }

  ghost predicate Dealt(t: Table, stacks: seq<int>) {
    Seated(t, |stacks|) && Chips(t) == Sum(stacks)
  }

  predicate ValidSeating(accountIds: seq<AccountId>, stacks: seq<int>, button: AccountId) {
    && 2 <= |accountIds| <= 8
    && |accountIds| == |stacks|
    && (forall i :: 0 <= i < |stacks| ==> stacks[i] >= 1)
    && (forall i, j :: 0 <= i < j < |accountIds| ==> accountIds[i] != accountIds[j])
    && button in accountIds
  }

  predicate ValidConfig(config: HandConfig) {
    config.ante >= 0 && config.smallBlind >= 1 && config.bigBlind >= config.smallBlind
  }

  /**
   * The contract every theorem about chips relies on: no library operation makes or loses a chip, a fold and a
   * show are free, a call costs at most the amount to call and a raise at most what it adds to the actor's bet.
   */
  ghost predicate Lawful(kit: PokerKit) {
    && (forall shuffle: nat, config: HandConfig, blinds: seq<int>, stacks: seq<int> ::
          ValidConfig(config) && 2 <= |stacks| <= 8 && |blinds| == |stacks|
          && (forall i :: 0 <= i < |stacks| ==> stacks[i] >= 1) ==>
            Dealt(kit.deal(shuffle, config, blinds, stacks), stacks))
    && (forall t: Table :: Seated(t, |t.stacks|) && t.actor.Some? ==> FollowsFor(t, kit.fold(t), 0))
    && (forall t: Table :: Seated(t, |t.stacks|) && t.actor.Some? && t.callAmount.Some? ==>
          FollowsFor(t, kit.checkOrCall(t), t.callAmount.value))
    && (forall t: Table, amount: int :: Seated(t, |t.stacks|) && t.actor.Some? && kit.canRaise(t, amount) ==>
          FollowsFor(t, kit.raise(t, amount), amount - t.bets[t.actor.value]))
    && (forall t: Table, status :: Seated(t, |t.stacks|) && t.showdown.Some? && kit.canShow(t, status) ==>
          FollowsFor(t, kit.show(t, status), 0))
  }

  /** The hand ends at once and the first seat takes every chip on the table. */
  function PaidOut(t: Table): Table {
    var n := |t.stacks|;
    if n == 0 then t
    else
      t.(stacks := t.stacks[0 := t.stacks[0] + Sum(t.bets) + t.collected], bets := seq(n, _ => 0), collected := 0,
         active := false, actor := None, showdown := None, payoffs := seq(n, _ => 0))
  }

  function FreshTable(stacks: seq<int>): Table {
    var n := |stacks|;
    Table(stacks, seq(n, _ => 0), 0, seq(n, _ => true), true, if n > 0 then Some(0) else None, None, true, Some(0), None,
          Preflop, [], [], [], [])
  }

  /** A library that meets the contract: any first move ends the hand. */
  function SimplestKit(): PokerKit {
    PokerKit((shuffle, config, blinds, stacks) => FreshTable(stacks), PaidOut, PaidOut, (t, amount) => false,
             (t, amount) => PaidOut(t), (t, status) => true, (t, status) => PaidOut(t))
  }

  lemma PaidOutFollows(t: Table)
    requires Seated(t, |t.stacks|) && |t.stacks| > 0
    ensures forall cost: int :: cost >= 0 ==> FollowsFor(t, PaidOut(t), cost)
  {
    SumNonNegative(t.bets);
    SumUpdate(t.stacks, 0, t.stacks[0] + Sum(t.bets) + t.collected);
    SumZero(PaidOut(t).bets);
  }

  /** The contract can be met, so nothing proved from it is proved from nothing. */
  lemma SimplestKitIsLawful()
    ensures Lawful(SimplestKit())
  {
    forall t: Table | Seated(t, |t.stacks|) && (t.actor.Some? || t.showdown.Some?)
      ensures FollowsFor(t, PaidOut(t), 0)
      ensures t.callAmount.Some? ==> FollowsFor(t, PaidOut(t), t.callAmount.value)
    {
      PaidOutFollows(t);
    }
    forall stacks: seq<int> | |stacks| >= 2 && forall i :: 0 <= i < |stacks| ==> stacks[i] >= 1
      ensures Dealt(FreshTable(stacks), stacks)
    {
      SumZero(FreshTable(stacks).bets);
    }
    hide PaidOut, FreshTable, Seated, FollowsFor, Dealt;
  }

  // ---------------------------------------------------------------------------------------------
  // The adapter
  // ---------------------------------------------------------------------------------------------

  datatype QuitRecord = QuitRecord(settlement: Settlement, index: nat)

  datatype Hand = Hand(table: Table, accountIds: seq<AccountId>, startingStacks: seq<int>, quit: Option<QuitRecord>)
  {
    predicate Complete() {
      quit.Some? || !table.active
    }
  }

  datatype PublicSnapshot = PublicSnapshot(
    accountIds: seq<AccountId>,
    stacks: seq<int>,
    bets: seq<int>,
    folded: seq<bool>,
    allIn: seq<bool>,
    potAmounts: seq<int>,
    actor: Option<AccountId>,
    street: Street,
    complete: bool,
    stateVersion: nat)

  /** The seat an account holds in this hand; seats are unique, so the first match is the only one. */
  function PlayerIndex(ids: seq<AccountId>, account: AccountId): (r: Option<nat>)
    ensures r.Some? <==> account in ids
    ensures r.Some? ==> r.value < |ids| && ids[r.value] == account
  {
    if ids == [] then None
    else if ids[0] == account then Some(0)
    else
      match PlayerIndex(ids[1..], account)
      case None => None
      case Some(i) => assert ids[1..][i] == ids[i + 1]; Some(i + 1)
  }

  /** Blinds by seat: heads-up the library reads them in reverse, so the button's entry is the big one. */
  function RawBlinds(n: nat, button: nat, small: int, big: int): seq<int>
    requires n >= 2
  {
    if n == 2 then seq(2, i => if i == button then big else small)
    else
      seq(n, i => if i == (button + 2) % n then big else if i == (button + 1) % n then small else 0)
  }

  /** Exactly one small and one big blind are posted, on different seats. */
  lemma RawBlindsPosted(n: nat, button: nat, small: int, big: int)
    requires n >= 2 && button < n
    ensures var b := RawBlinds(n, button, small, big);
            var smallSeat := (button + 1) % n;
            var bigSeat := if n == 2 then button else (button + 2) % n;
            && smallSeat != bigSeat
            && |b| == n && b[smallSeat] == small && b[bigSeat] == big
            && (forall i :: 0 <= i < n && i != smallSeat && i != bigSeat ==> b[i] == 0)
            && Sum(b) == small + big
  {
    WrapSeat(n, button + 1);
    WrapSeat(n, button + 2);
    var zero := seq(n, _ => 0);
    var smallSeat := (button + 1) % n;
    var bigSeat := if n == 2 then button else (button + 2) % n;
    assert RawBlinds(n, button, small, big) == zero[smallSeat := small][bigSeat := big];
    SumZero(zero);
    SumUpdate(zero, smallSeat, small);
    SumUpdate(zero[smallSeat := small], bigSeat, big);
  }

  /** One lap at most: wrapping is a subtraction. */
  lemma WrapSeat(n: nat, i: nat)
    requires 0 < n && i < 2 * n
    ensures i % n == if i < n then i else i - n
  {
  }

  function CreateHand(kit: PokerKit, shuffle: nat, config: HandConfig, ids: seq<AccountId>, stacks: seq<int>,
                      button: AccountId): Result<Hand, HandError> {
    if !ValidConfig(config) then Err(BadHandConfig)
    else if !ValidSeating(ids, stacks, button) then Err(BadSeating)
    else
      var blinds := RawBlinds(|ids|, PlayerIndex(ids, button).value, config.smallBlind, config.bigBlind);
      Ok(Hand(kit.deal(shuffle, config, blinds, stacks), ids, stacks, None))
  }

  /** What the library's seats mean: in range for this hand, chips accounted for. */
  ghost predicate ValidHand(h: Hand) {
    && Seated(h.table, |h.accountIds|)
    && |h.startingStacks| == |h.accountIds| >= 2
    && (forall i, j :: 0 <= i < j < |h.accountIds| ==> h.accountIds[i] != h.accountIds[j])
    && Chips(h.table) == Sum(h.startingStacks)
    && (h.quit.Some? ==>
          && h.quit.value.index < |h.accountIds|
          && h.quit.value.settlement == QuitSettlement(h.table, h.startingStacks, h.quit.value.index))
  }

  function LegalActions(h: Hand, account: AccountId): Result<seq<LegalAction>, HandError> {
    var index := PlayerIndex(h.accountIds, account);
    if index.None? then Err(UnknownPlayer)
    else if h.table.showdown == index then Ok([LegalAction(Show, None, None), LegalAction(Muck, None, None)])
    else if h.table.actor != index then Err(NotCurrentActor)
    else
      Ok((if h.table.canFold then [LegalAction(Fold, None, None)] else [])
         + (if h.table.callAmount.Some? then [LegalAction(CheckOrCall, h.table.callAmount, h.table.callAmount)] else [])
         + (if h.table.raiseRange.Some?
            then [LegalAction(BetOrRaise, Some(h.table.raiseRange.value.0), Some(h.table.raiseRange.value.1))]
            else []))
  }

  function ApplyAction(kit: PokerKit, h: Hand, c: ActionCommand): Result<(Hand, AppliedAction), HandError> {
    var t := h.table;
    var index := PlayerIndex(h.accountIds, c.accountId);
    if index.None? then Err(UnknownPlayer)
    else if c.action.Show? || c.action.Muck? then
      if t.showdown != index || c.amount.Some? || !kit.canShow(t, c.action.Show?) then Err(InvalidAction)
      else Ok((h.(table := kit.show(t, c.action.Show?)), AppliedAction(c.accountId, c.action, None)))
    else if t.actor != index then Err(NotCurrentActor)
    else
      match c.action
      case Fold =>
        if c.amount.Some? || !t.canFold then Err(InvalidAction)
        else Ok((h.(table := kit.fold(t)), AppliedAction(c.accountId, Fold, None)))
      case CheckOrCall =>
        if t.callAmount.None? || (c.amount.Some? && c.amount != t.callAmount) then Err(InvalidAction)
        else Ok((h.(table := kit.checkOrCall(t)), AppliedAction(c.accountId, CheckOrCall, t.callAmount)))
      case BetOrRaise =>
        if c.amount.None? || !kit.canRaise(t, c.amount.value) then Err(InvalidAction)
        else Ok((h.(table := kit.raise(t, c.amount.value)), AppliedAction(c.accountId, BetOrRaise, c.amount)))
      case _ => Err(InvalidAction)
  }

  /** The seat an account acts from, if it is one of the hand. */
  function SeatAt(h: Hand, account: AccountId): Option<nat> {
    PlayerIndex(h.accountIds, account)
  }

  /** What an action may take out of its player's stack. */
  function Cost(t: Table, c: ActionCommand): int {
    match c.action
    case CheckOrCall => if t.callAmount.Some? then t.callAmount.value else 0
    case BetOrRaise =>
      if c.amount.Some? && t.actor.Some? && t.actor.value < |t.bets| then c.amount.value - t.bets[t.actor.value] else 0
    case _ => 0
  }

  /**
   * Applied actions keep a hand valid, never touch who is seated or what they started with, and cost nobody
   * anything but the player who acts, and that player no more than the action is worth.
   */
  lemma ApplyActionValid(kit: PokerKit, h: Hand, c: ActionCommand)
    requires Lawful(kit) && ValidHand(h) && h.quit.None?
    ensures var r := ApplyAction(kit, h, c);
            r.Ok? ==>
              && ValidHand(r.value.0) && r.value.0.quit.None?
              && r.value.0.accountIds == h.accountIds && r.value.0.startingStacks == h.startingStacks
              && h.table.active
              && PaysAtMost(h.table.stacks, r.value.0.table.stacks, SeatAt(h, c.accountId), Cost(h.table, c))
  {
    if ApplyAction(kit, h, c).Ok? {
      TableFollows(kit, h, c);
      hide Lawful, ApplyAction, PaysAtMost, Cost;
      TurnMeansActive(h.table, |h.accountIds|);
    }
  }

  lemma TurnMeansActive(t: Table, n: nat)
    requires Seated(t, n) && t.Turn().Some?
    ensures t.active
  {
  }

  lemma TableFollows(kit: PokerKit, h: Hand, c: ActionCommand)
    requires Lawful(kit) && ValidHand(h) && h.quit.None? && ApplyAction(kit, h, c).Ok?
    ensures var next := ApplyAction(kit, h, c).value.0;
            && next == h.(table := next.table) && h.table.Turn().Some?
            && Follows(h.table, next.table)
            && PaysAtMost(h.table.stacks, next.table.stacks, SeatAt(h, c.accountId), Cost(h.table, c))
  {
    var t := h.table;
    SeatedTable(h);
    hide ValidHand, Seated, Follows;
    if t.actor.Some? {
      assert FollowsFor(t, kit.fold(t), 0);
      assert t.callAmount.Some? ==> FollowsFor(t, kit.checkOrCall(t), t.callAmount.value);
      if c.amount.Some? {
        var amount: int := c.amount.value;
        assert kit.canRaise(t, amount) ==> FollowsFor(t, kit.raise(t, amount), amount - t.bets[t.actor.value]);
      }
    } else if t.showdown.Some? {
      assert kit.canShow(t, c.action.Show?) ==> FollowsFor(t, kit.show(t, c.action.Show?), 0);
    }
  }

  lemma SeatedTable(h: Hand)
    requires ValidHand(h)
    ensures var t := h.table;
            && Seated(t, |t.stacks|) && (t.actor.Some? ==> t.actor.value < |t.bets| && t.showdown.None?)
  {
  }

  // ---------------------------------------------------------------------------------------------
  // Which operation of the library an action reaches
  // ---------------------------------------------------------------------------------------------

  function Noted(t: Table, operation: seq<int>): Table {
    t.(potAmounts := t.potAmounts + operation)
  }

  /** A library that only writes down which of its operations was called, and with what. */
  function RecordingKit(): PokerKit {
    PokerKit((shuffle, config, blinds, stacks) => FreshTable(stacks), t => Noted(t, [0]), t => Noted(t, [1]),
             (t, amount) => true, (t, amount) => Noted(t, [2, amount]),
             (t, status) => true, (t, status) => Noted(t, [if status then 3 else 4]))
  }

  /** The operation an action stands for, as the library above writes it down. */
  function Operation(action: ActionType, amount: Option<int>): seq<int> {
    match action
    case Fold => [0]
    case CheckOrCall => [1]
    case BetOrRaise => [2, if amount.Some? then amount.value else 0]
    case Show => [3]
    case Muck => [4]
  }

  /** An accepted action reaches the library as the operation it names, exactly once, and is reported as it was. */
  lemma ReachesItsOperation(h: Hand, c: ActionCommand)
    requires ApplyAction(RecordingKit(), h, c).Ok?
    ensures var (next, applied) := ApplyAction(RecordingKit(), h, c).value;
            && next == h.(table := Noted(h.table, Operation(c.action, c.amount)))
            && applied.accountId == c.accountId && applied.action == c.action
            && applied.amount == if c.action.CheckOrCall? then h.table.callAmount else c.amount
  {
  }

  /** Whose turn it is, and with what: exactly when an action is accepted. */
  lemma AcceptedIff(kit: PokerKit, h: Hand, c: ActionCommand)
    ensures var seat := SeatAt(h, c.accountId);
            ApplyAction(kit, h, c).Ok? <==>
            && seat.Some?
            && match c.action
               case Fold => h.table.actor == seat && h.table.canFold && c.amount.None?
               case CheckOrCall =>
                 h.table.actor == seat && h.table.callAmount.Some? && (c.amount == None || c.amount == h.table.callAmount)
               case BetOrRaise => h.table.actor == seat && c.amount.Some? && kit.canRaise(h.table, c.amount.value)
               case Show => h.table.showdown == seat && c.amount.None? && kit.canShow(h.table, true)
               case Muck => h.table.showdown == seat && c.amount.None? && kit.canShow(h.table, false)
  {
  }

  predicate Offers(legal: seq<LegalAction>, action: ActionType, min: Option<int>, max: Option<int>) {
    LegalAction(action, min, max) in legal
  }

  /**
   * Actions are offered to whoever's turn it is, and are exactly those that would be accepted: showing and mucking
   * at showdown, and before that folding, calling the amount to call, and raising within the range there is.
   */
  lemma OfferedIff(kit: PokerKit, h: Hand, account: AccountId)
    ensures var seat, offered := SeatAt(h, account), LegalActions(h, account);
            && (offered.Ok? <==> seat.Some? && h.table.Turns(seat))
            && (offered.Ok? && h.table.showdown == seat ==>
                  forall action, min, max :: Offers(offered.value, action, min, max) <==>
                    (action == Show || action == Muck) && min == max == None)
            && (offered.Ok? && h.table.showdown != seat ==>
                  forall action, min, max :: Offers(offered.value, action, min, max) <==>
                    && (action.BetOrRaise? ==>
                          h.table.raiseRange.Some? && min == Some(h.table.raiseRange.value.0)
                          && max == Some(h.table.raiseRange.value.1))
                    && (!action.BetOrRaise? ==>
                          && ApplyAction(kit, h, ActionCommand(account, action, None)).Ok?
                          && min == max == ApplyAction(kit, h, ActionCommand(account, action, None)).value.1.amount))
  {
    var seat := SeatAt(h, account);
    if LegalActions(h, account).Ok? && h.table.showdown == seat {
      var legal := LegalActions(h, account).value;
      assert legal[0] == LegalAction(Show, None, None) && legal[1] == LegalAction(Muck, None, None);
    } else if LegalActions(h, account).Ok? {
      var t := h.table;
      var fold := if t.canFold then [LegalAction(Fold, None, None)] else [];
      var call := if t.callAmount.Some? then [LegalAction(CheckOrCall, t.callAmount, t.callAmount)] else [];
      var raise := if t.raiseRange.Some?
                   then [LegalAction(BetOrRaise, Some(t.raiseRange.value.0), Some(t.raiseRange.value.1))] else [];
      assert LegalActions(h, account).value == fold + call + raise;
    }
  }

  // ---------------------------------------------------------------------------------------------
  // Quitting: the forfeited value is split over the other seats
  // ---------------------------------------------------------------------------------------------

  /** Position of seat i among the recipients, when seat q quits. */
  function RecipientOrder(q: nat, i: nat): nat {
    if i < q then i else if i == q then 0 else i - 1
  }

  /** What n seats receive when each recipient gets `each` and the first `extra` of them one chip more. */
  function Shares(n: nat, q: nat, each: int, extra: int): (p: seq<int>)
    ensures |p| == n
  {
    seq(n, i requires 0 <= i < n => if i == q then 0 else each + if RecipientOrder(q, i) < extra then 1 else 0)
  }

  function QuitPayouts(n: nat, q: nat, forfeited: int): (p: seq<int>)
    requires n >= 2
    ensures |p| == n
  {
    Shares(n, q, forfeited / (n - 1), forfeited % (n - 1))
  }

  function QuitSettlement(t: Table, starting: seq<int>, q: nat): Settlement
    requires |t.stacks| == |t.bets| == |starting| >= 2 && q < |starting|
  {
    SplitSettlement(t, starting, q, QuitPayouts(|starting|, q, t.stacks[q] + t.bets[q]))
  }

  /** The settlement of a quit, for whatever payouts the split decided. */
  function SplitSettlement(t: Table, starting: seq<int>, q: nat, payouts: seq<int>): Settlement
    requires |t.stacks| == |t.bets| == |starting| == |payouts| && q < |starting|
  {
    var n := |starting|;
    var finals := seq(n, i requires 0 <= i < n => if i == q then 0 else t.stacks[i] + t.bets[i] + payouts[i]);
    Settlement(
      finals,
      seq(n, i requires 0 <= i < n => finals[i] - starting[i]),
      t.bets,
      [Pot(t.stacks[q] + t.bets[q], seq(n - 1, k requires 0 <= k < n - 1 => if k < q then k else k + 1), payouts)])
  }

  function Recipients(q: nat, k: nat): nat {
    if k <= q then k else k - 1
  }

  /** The first k payouts: one quotient per recipient met so far, plus the extra chips met so far. */
  lemma {:induction false} SharePrefix(n: nat, q: nat, each: int, extra: nat, k: nat)
    requires q < n && k <= n
    ensures var m := Recipients(q, k);
            Sum(Shares(n, q, each, extra)[..k]) == m * each + if m < extra then m else extra
  {
    if k > 0 {
      SharePrefix(n, q, each, extra, k - 1);
      SumPrefixStep(Shares(n, q, each, extra), k - 1);
      MulSucc(Recipients(q, k - 1), each);
    }
  }

  lemma PayoutsSum(n: nat, q: nat, forfeited: int)
    requires q < n && n >= 2 && forfeited >= 0
    ensures Sum(QuitPayouts(n, q, forfeited)) == forfeited
  {
    var p := QuitPayouts(n, q, forfeited);
    SharePrefix(n, q, forfeited / (n - 1), forfeited % (n - 1), n);
    assert p[..n] == p;
  }

  /** The laws of a fair split: nothing for the quitter, and a drop of at most one, earliest seats first. */
  predicate FairSplit(p: seq<int>, q: nat) {
    && q < |p| && p[q] == 0
    && forall i, j :: 0 <= i < j < |p| && i != q && j != q ==> p[j] <= p[i] <= p[j] + 1
  }

  /** In a fair split the recipients met so far hold low + 1 for the first c of them and low after that. */
  lemma {:induction false} FairPrefix(p: seq<int>, q: nat, last: nat, k: nat) returns (c: nat)
    requires FairSplit(p, q) && k <= |p|
    requires last < |p| && last != q && Recipients(q, last) == |p| - 2
    ensures c <= Recipients(q, k)
    ensures forall i :: 0 <= i < k && i != q ==> p[i] == p[last] + if RecipientOrder(q, i) < c then 1 else 0
  {
    if k == 0 {
      c := 0;
    } else {
      c := FairPrefix(p, q, last, k - 1);
      if k - 1 != q {
        var m := Recipients(q, k - 1);
        if c < m {
          assert p[if c < q then c else c + 1] == p[last];
        } else if p[k - 1] == p[last] + 1 {
          c := c + 1;
        }
      }
    }
  }

  /** No other split of the forfeited chips is fair: the laws determine every seat's payout. */
  lemma PayoutsUnique(n: nat, q: nat, forfeited: int, p: seq<int>)
    requires n >= 2 && |p| == n && FairSplit(p, q) && Sum(p) == forfeited
    ensures p == QuitPayouts(n, q, forfeited)
  {
    var last := if q == n - 1 then n - 2 else n - 1;
    var c := FairPrefix(p, q, last, n);
    assert p == Shares(n, q, p[last], c);
    SharePrefix(n, q, p[last], c, n);
    assert p[..n] == p;
    assert RecipientOrder(q, last) == n - 2 && c < n - 1;
    DivisionUnique(forfeited, n - 1, p[last], c);
  }

  /** The recipients' shares: they add up to the forfeited chips, fairly, and none is negative. */
  lemma QuitShares(n: nat, q: nat, forfeited: int)
    requires q < n && n >= 2 && forfeited >= 0
    ensures var p := QuitPayouts(n, q, forfeited);
            && Sum(p) == forfeited && FairSplit(p, q)
            && forall i :: 0 <= i < n ==> p[i] >= 0
  {
    PayoutsSum(n, q, forfeited);
    QuotientNonNegative(forfeited, n - 1);
  }

  /** Emptying one seat and handing out payouts moves chips without making or losing any. */
  lemma SplitTotals(t: Table, starting: seq<int>, q: nat, payouts: seq<int>)
    requires |t.stacks| == |t.bets| == |starting| == |payouts| && q < |starting|
    requires payouts[q] == 0 && Sum(payouts) == t.stacks[q] + t.bets[q]
    ensures var s := SplitSettlement(t, starting, q, payouts);
            && Sum(s.finalStacks) == Sum(t.stacks) + Sum(t.bets)
            && Sum(s.payoffs) == Sum(s.finalStacks) - Sum(starting)
  {
    var s := SplitSettlement(t, starting, q, payouts);
    var own := seq(|starting|, i requires 0 <= i < |starting| => t.stacks[i] + t.bets[i]);
    SumZip(t.stacks, t.bets, own);
    SumUpdate(own, q, 0);
    SumZip(own[q := 0], payouts, s.finalStacks);
    SumZip(s.payoffs, starting, s.finalStacks);
  }

  /** Everything a quit promises about a valid hand. */
  lemma QuitSplit(h: Hand, q: nat)
    requires ValidHand(h) && h.quit.None? && q < |h.accountIds|
    ensures var t := h.table;
            var s := QuitSettlement(t, h.startingStacks, q);
            var p := s.pots[0].payouts;
            && Sum(p) == s.pots[0].amount == t.stacks[q] + t.bets[q]
            && s.finalStacks[q] == 0 && FairSplit(p, q)
            && (forall i :: 0 <= i < |p| && i != q ==> s.finalStacks[i] == t.stacks[i] + t.bets[i] + p[i])
            && (forall i :: 0 <= i < |p| ==> s.finalStacks[i] >= 0 && p[i] >= 0)
            && Sum(s.finalStacks) == Sum(t.stacks) + Sum(t.bets)
            && Sum(s.payoffs) == -t.collected
  {
    hide QuitPayouts, Sum;
    var t := h.table;
    var payouts := QuitPayouts(|h.startingStacks|, q, t.stacks[q] + t.bets[q]);
    QuitShares(|h.startingStacks|, q, t.stacks[q] + t.bets[q]);
    SplitTotals(t, h.startingStacks, q, payouts);
    assert QuitSettlement(t, h.startingStacks, q) == SplitSettlement(t, h.startingStacks, q, payouts);
  }

  function Settle(h: Hand): Result<Settlement, HandError> {
    if h.quit.Some? then Ok(h.quit.value.settlement)
    else if !h.Complete() then Err(HandNotComplete)
    else Ok(Settlement(h.table.stacks, h.table.payoffs, h.table.contributions, h.table.pots))
  }

  function QuitPlayer(h: Hand, account: AccountId): Result<(Hand, Settlement), HandError> {
    var index := PlayerIndex(h.accountIds, account);
    if h.quit.Some? || !h.table.active then Err(InvalidAction)
    else if index.None? then Err(UnknownPlayer)
    else if |h.accountIds| < 2 || |h.startingStacks| != |h.accountIds| || |h.table.stacks| != |h.accountIds|
            || |h.table.bets| != |h.accountIds| then Err(InvalidAction)
    else
      var s := QuitSettlement(h.table, h.startingStacks, index.value);
      Ok((h.(quit := Some(QuitRecord(s, index.value))), s))
  }

  /**
   * The chips a settled hand gives back: all of them, unless it was ended by a quit, which leaves out
   * exactly what had already been collected into pots.
   */
  lemma SettlementChips(h: Hand)
    requires ValidHand(h) && h.Complete()
    ensures var s := Settle(h).value;
            && |s.finalStacks| == |h.accountIds|
            && (forall i :: 0 <= i < |s.finalStacks| ==> s.finalStacks[i] >= 0)
            && Sum(s.finalStacks) == Sum(h.startingStacks) - if h.quit.Some? then h.table.collected else 0
  {
    if h.quit.Some? {
      QuitSplit(h.(quit := None), h.quit.value.index);
    } else {
      SumZero(h.table.bets);
    }
  }

  predicate Stands(t: Table, i: nat) {
    i < |t.standing| && t.standing[i]
  }

  predicate AllIn(t: Table, i: nat) {
    i < |t.stacks| && t.stacks[i] == 0 && Stands(t, i)
  }

  function PublicView(h: Hand): PublicSnapshot {
    var n := |h.accountIds|;
    var t := h.table;
    match h.quit
    case Some(q) =>
      PublicSnapshot(
        h.accountIds, q.settlement.finalStacks, seq(n, _ => 0),
        seq(n, i requires 0 <= i < n => i == q.index || !Stands(t, i)),
        seq(n, i requires 0 <= i < n => i != q.index && AllIn(t, i)),
        [], None, Settled, true, 0)
    case None =>
      PublicSnapshot(
        h.accountIds, t.stacks, t.bets,
        seq(n, i requires 0 <= i < n => !Stands(t, i)),
        seq(n, i requires 0 <= i < n => AllIn(t, i)),
        if t.potAmounts == [] then [t.collected + Sum(t.bets)] else t.potAmounts,
        if t.Turn().Some? && t.Turn().value < n then Some(h.accountIds[t.Turn().value]) else None,
        if t.showdown.Some? then Showdown else if !t.active then Settled else t.street,
        !t.active, 0)
  }

  /** Seat by seat, what everybody sees of a hand. */
  lemma ViewTells(h: Hand, i: nat)
    requires ValidHand(h) && i < |h.accountIds|
    ensures var v, t := PublicView(h), h.table;
            && v.accountIds == h.accountIds && |v.stacks| == |v.bets| == |v.folded| == |v.allIn| == |h.accountIds|
            && (v.complete <==> h.Complete())
            && (h.quit.None? ==>
                  && v.stacks[i] == t.stacks[i] && v.bets[i] == t.bets[i]
                  && (v.folded[i] <==> !t.standing[i]) && (v.allIn[i] <==> t.standing[i] && t.stacks[i] == 0))
            && (h.quit.Some? ==>
                  && v.stacks[i] == h.quit.value.settlement.finalStacks[i] && v.bets[i] == 0
                  && (v.folded[i] <==> !t.standing[i] || i == h.quit.value.index)
                  && (v.allIn[i] <==> t.standing[i] && t.stacks[i] == 0 && i != h.quit.value.index))
  {
    hide QuitPayouts, Sum;
  }

  /** As long as the library names no pots, the stacks and the one pot shown are all chips of the hand. */
  lemma ShownChips(h: Hand)
    requires ValidHand(h) && h.quit.None? && h.table.potAmounts == []
    ensures Sum(PublicView(h).stacks) + Sum(PublicView(h).potAmounts) == Sum(h.startingStacks)
  {
    var pot := h.table.collected + Sum(h.table.bets);
    assert [pot][..0] == [];
    assert Sum([pot]) == pot;
  }
}
