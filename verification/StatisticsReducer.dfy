/** Player statistics reduced from hands and matches: what one hand adds, and how additions combine. */
module StatisticsReducer {
  import opened Prelude
  import opened PokerHand

  datatype Position = OnButton | OnSmallBlind | OnBigBlind | InSeat(index: nat)

  datatype StatisticsAction = StatisticsAction(
    accountId: AccountId, street: Street, action: ActionType, amount: Option<int>)

  datatype StatisticsPlayer = StatisticsPlayer(
    accountId: AccountId, position: Position, folded: bool, allIn: bool, wonChips: int, showdown: bool)

  datatype StatisticsHand = StatisticsHand(
    matchId: nat, potAmount: int, players: seq<StatisticsPlayer>, actions: seq<StatisticsAction>, reachedShowdown: bool)

  datatype MatchOutcome = Profit | Loss | Tie

  datatype StatisticsMatch = StatisticsMatch(
    matchId: nat, hands: seq<StatisticsHand>, results: map<AccountId, MatchOutcome>)

  datatype StatisticsError = DuplicatePlayer | UnknownActor | OtherMatch

  type Positions = map<Position, int>

  /** The counters of one account. */
  datatype PlayerStatistics = PlayerStatistics(
    dealtHands: int, wonHands: int, matchesPlayed: int, profitableMatches: int,
    vpipOpportunities: int, vpip: int, pfrOpportunities: int, pfr: int,
    threeBetOpportunities: int, threeBets: int,
    showdownOpportunities: int, showdowns: int, showdownWins: int,
    decisions: int, folds: int, allIns: int, potTotal: int, potCount: int,
    positionCounts: Positions)

  const ZERO := PlayerStatistics(0, 0, 0, 0, 0, 0, 0, 0, 0, 0, 0, 0, 0, 0, 0, 0, 0, 0, map[])

  type Totals = map<AccountId, PlayerStatistics>

  // ---------------------------------------------------------------------------------------------
  // One hand
  // ---------------------------------------------------------------------------------------------

  predicate Decides(a: StatisticsAction) {
    !a.action.Show? && !a.action.Muck?
  }

  predicate PreflopDecision(a: StatisticsAction) {
    a.street.Preflop? && Decides(a)
  }

  predicate Raises(a: StatisticsAction) {
    a.action.BetOrRaise?
  }

  /** A preflop decision taken after somebody's preflop raise. */
  predicate Facing(actions: seq<StatisticsAction>, i: nat)
    requires i < |actions|
  {
    PreflopDecision(actions[i]) && exists j :: 0 <= j < i && PreflopDecision(actions[j]) && Raises(actions[j])
  }

  predicate Acted(actions: seq<StatisticsAction>, a: AccountId) {
    exists i :: 0 <= i < |actions| && actions[i].accountId == a && PreflopDecision(actions[i])
  }

  predicate FacedRaise(actions: seq<StatisticsAction>, a: AccountId) {
    exists i :: 0 <= i < |actions| && actions[i].accountId == a && Facing(actions, i)
  }

  /** Only the first decision facing a raise counts towards a three-bet. */
  predicate ThreeBet(actions: seq<StatisticsAction>, a: AccountId) {
    exists i :: 0 <= i < |actions| && actions[i].accountId == a && Facing(actions, i) && Raises(actions[i])
                && forall j :: 0 <= j < i && actions[j].accountId == a ==> !Facing(actions, j)
  }

  predicate Raised(actions: seq<StatisticsAction>, a: AccountId) {
    exists i :: 0 <= i < |actions| && actions[i].accountId == a && actions[i].street.Preflop? && Raises(actions[i])
  }

  predicate PutsMoneyIn(a: StatisticsAction) {
    Raises(a) || (a.action.CheckOrCall? && a.amount.Some? && a.amount.value > 0)
  }

  predicate Volunteered(actions: seq<StatisticsAction>, a: AccountId) {
    exists i :: 0 <= i < |actions| && actions[i].accountId == a && actions[i].street.Preflop? && PutsMoneyIn(actions[i])
  }

  function Decisions(actions: seq<StatisticsAction>, a: AccountId): nat {
    if actions == [] then 0
    else
      var last := actions[|actions| - 1];
      Decisions(actions[..|actions| - 1], a) + if last.accountId == a && Decides(last) then 1 else 0
  }

  function Folds(actions: seq<StatisticsAction>, a: AccountId): nat {
    if actions == [] then 0
    else
      var last := actions[|actions| - 1];
      Folds(actions[..|actions| - 1], a) + if last.accountId == a && last.action.Fold? then 1 else 0
  }

  function One(b: bool): int {
    if b then 1 else 0
  }

  /** What a hand adds to the counters of one of its players. */
  function HandDelta(hand: StatisticsHand, p: StatisticsPlayer): PlayerStatistics {
    var a, actions := p.accountId, hand.actions;
    var reached := hand.reachedShowdown && !p.folded;
    PlayerStatistics(
      1, One(p.wonChips > 0), 0, 0,
      One(Acted(actions, a)), One(Volunteered(actions, a)), One(Acted(actions, a)), One(Raised(actions, a)),
      One(FacedRaise(actions, a)), One(ThreeBet(actions, a)),
      One(!p.folded), One(reached), One(reached && p.showdown && p.wonChips > 0),
      Decisions(actions, a), Folds(actions, a), One(p.allIn), hand.potAmount, 1,
      map[p.position := 1])
  }

  function DeltasOf(hand: StatisticsHand, players: seq<StatisticsPlayer>): Totals {
    if players == [] then map[]
    else
      var last := players[|players| - 1];
      DeltasOf(hand, players[..|players| - 1])[last.accountId := HandDelta(hand, last)]
  }

  predicate UniquePlayers(players: seq<StatisticsPlayer>) {
    forall i, j :: 0 <= i < j < |players| ==> players[i].accountId != players[j].accountId
  }

  predicate Among(players: seq<StatisticsPlayer>, a: AccountId) {
    exists j :: 0 <= j < |players| && players[j].accountId == a
  }

  predicate KnownPlayers(hand: StatisticsHand) {
    forall i :: 0 <= i < |hand.actions| ==> Among(hand.players, hand.actions[i].accountId)
  }

  function ReducedHand(hand: StatisticsHand): Result<Totals, StatisticsError> {
    if !UniquePlayers(hand.players) then Err(DuplicatePlayer)
    else if !KnownPlayers(hand) then Err(UnknownActor)
    else Ok(DeltasOf(hand, hand.players))
  }

  // ---------------------------------------------------------------------------------------------
  // Combining
  // ---------------------------------------------------------------------------------------------

  function CountAt(m: Positions, p: Position): int {
    if p in m then m[p] else 0
  }

  function AddPositions(m: Positions, n: Positions): Positions {
    map p | p in m.Keys + n.Keys :: CountAt(m, p) + CountAt(n, p)
  }

  function Merge(x: PlayerStatistics, d: PlayerStatistics): PlayerStatistics {
    PlayerStatistics(
      x.dealtHands + d.dealtHands, x.wonHands + d.wonHands,
      x.matchesPlayed + d.matchesPlayed, x.profitableMatches + d.profitableMatches,
      x.vpipOpportunities + d.vpipOpportunities, x.vpip + d.vpip,
      x.pfrOpportunities + d.pfrOpportunities, x.pfr + d.pfr,
      x.threeBetOpportunities + d.threeBetOpportunities, x.threeBets + d.threeBets,
      x.showdownOpportunities + d.showdownOpportunities, x.showdowns + d.showdowns, x.showdownWins + d.showdownWins,
      x.decisions + d.decisions, x.folds + d.folds, x.allIns + d.allIns,
      x.potTotal + d.potTotal, x.potCount + d.potCount,
      AddPositions(x.positionCounts, d.positionCounts))
  }

  function MergeAt(t: Totals, a: AccountId, d: PlayerStatistics): Totals {
    t[a := if a in t then Merge(t[a], d) else d]
  }

  function MergeAll(t: Totals, d: Totals): Totals {
    map a | a in t.Keys + d.Keys :: if a !in t then d[a] else if a !in d then t[a] else Merge(t[a], d[a])
  }

  function OutcomeDelta(profitable: bool): PlayerStatistics {
    ZERO.(matchesPlayed := 1, profitableMatches := One(profitable))
  }

  function OutcomeDeltas(results: map<AccountId, bool>): Totals {
    map a | a in results :: OutcomeDelta(results[a])
  }

  function Profits(results: map<AccountId, MatchOutcome>): map<AccountId, bool> {
    map a | a in results :: results[a].Profit?
  }

  function ReducedHands(matchId: nat, hands: seq<StatisticsHand>): Result<Totals, StatisticsError> {
    if hands == [] then Ok(map[])
    else
      var last := hands[|hands| - 1];
      match ReducedHands(matchId, hands[..|hands| - 1])
      case Err(e) => Err(e)
      case Ok(t) =>
        if last.matchId != matchId then Err(OtherMatch)
        else
          match ReducedHand(last)
          case Err(e) => Err(e)
          case Ok(d) => Ok(MergeAll(t, d))
  }

  function ReducedMatch(m: StatisticsMatch): Result<Totals, StatisticsError> {
    match ReducedHands(m.matchId, m.hands)
    case Err(e) => Err(e)
    case Ok(t) => Ok(MergeAll(t, OutcomeDeltas(Profits(m.results))))
  }

  function Rebuilt(matches: seq<StatisticsMatch>): Result<Totals, StatisticsError> {
    if matches == [] then Ok(map[])
    else
      match Rebuilt(matches[..|matches| - 1])
      case Err(e) => Err(e)
      case Ok(t) =>
        match ReducedMatch(matches[|matches| - 1])
        case Err(e) => Err(e)
        case Ok(d) => Ok(MergeAll(t, d))
  }

  // ---------------------------------------------------------------------------------------------
  // The loops
  // ---------------------------------------------------------------------------------------------

  ghost predicate Scanned(actions: seq<StatisticsAction>, n: nat, acted: set<AccountId>, raised: bool,
                          faced: set<AccountId>, threeBets: set<AccountId>)
    requires n <= |actions|
  {
    && (forall a :: a in acted <==> Acted(actions[..n], a))
    && (raised <==> exists i :: 0 <= i < n && PreflopDecision(actions[i]) && Raises(actions[i]))
    && (forall a :: a in faced <==> FacedRaise(actions[..n], a))
    && (forall a :: a in threeBets <==> ThreeBet(actions[..n], a))
  }

  /** One more action changes the three sets only at the account that acted. */
  lemma ScanOne(actions: seq<StatisticsAction>, last: StatisticsAction, a: AccountId)
    ensures var longer := actions + [last];
            var raised := exists i :: 0 <= i < |actions| && PreflopDecision(actions[i]) && Raises(actions[i]);
            var mine := last.accountId == a && PreflopDecision(last);
            && (Acted(longer, a) <==> Acted(actions, a) || mine)
            && (FacedRaise(longer, a) <==> FacedRaise(actions, a) || (mine && raised))
            && (ThreeBet(longer, a) <==> ThreeBet(actions, a) || (mine && raised && Raises(last) && !FacedRaise(actions, a)))
  {
    var longer, n := actions + [last], |actions|;
    assert forall i :: 0 <= i < n ==> longer[i] == actions[i];
    assert longer[n] == last;
    forall i | 0 <= i < n ensures Facing(longer, i) == Facing(actions, i) {
      if Facing(actions, i) {
        var j :| 0 <= j < i && PreflopDecision(actions[j]) && Raises(actions[j]);
        assert PreflopDecision(longer[j]) && Raises(longer[j]);
      }
    }
    assert Facing(longer, n) <==>
           PreflopDecision(last) && exists i :: 0 <= i < |actions| && PreflopDecision(actions[i]) && Raises(actions[i]);
    ActedOne(actions, last, a);
    FacedOne(actions, last, a);
    ThreeBetOne(actions, last, a);
  }

  lemma ActedOne(actions: seq<StatisticsAction>, last: StatisticsAction, a: AccountId)
    ensures Acted(actions + [last], a) <==> Acted(actions, a) || (last.accountId == a && PreflopDecision(last))
  {
    var longer := actions + [last];
    assert longer[|actions|] == last;
    if Acted(actions, a) {
      var i :| 0 <= i < |actions| && actions[i].accountId == a && PreflopDecision(actions[i]);
      assert longer[i] == actions[i];
    }
  }

  lemma FacedOne(actions: seq<StatisticsAction>, last: StatisticsAction, a: AccountId)
    requires var longer := actions + [last]; forall i :: 0 <= i < |actions| ==> Facing(longer, i) == Facing(actions, i)
    ensures var longer := actions + [last];
            FacedRaise(longer, a) <==> FacedRaise(actions, a) || (last.accountId == a && Facing(longer, |actions|))
  {
    hide Facing;
    var longer := actions + [last];
    assert longer[|actions|] == last;
    if FacedRaise(actions, a) {
      var i :| 0 <= i < |actions| && actions[i].accountId == a && Facing(actions, i);
      assert longer[i] == actions[i] && Facing(longer, i);
    }
  }

  lemma ThreeBetOne(actions: seq<StatisticsAction>, last: StatisticsAction, a: AccountId)
    requires var longer := actions + [last]; forall i :: 0 <= i < |actions| ==> Facing(longer, i) == Facing(actions, i)
    ensures var longer := actions + [last];
            ThreeBet(longer, a) <==>
            || ThreeBet(actions, a)
            || (last.accountId == a && Facing(longer, |actions|) && Raises(last) && !FacedRaise(actions, a))
  {
    hide Facing;
    var longer := actions + [last];
    assert longer[|actions|] == last;
    if ThreeBet(actions, a) {
      var i :| 0 <= i < |actions| && actions[i].accountId == a && Facing(actions, i) && Raises(actions[i])
               && forall j :: 0 <= j < i && actions[j].accountId == a ==> !Facing(actions, j);
      assert longer[i] == actions[i] && Facing(longer, i);
    }
    if ThreeBet(longer, a) {
      var i :| 0 <= i < |longer| && longer[i].accountId == a && Facing(longer, i) && Raises(longer[i])
               && forall j :: 0 <= j < i && longer[j].accountId == a ==> !Facing(longer, j);
      if i < |actions| {
        assert actions[i] == longer[i] && Facing(actions, i);
        assert forall j :: 0 <= j < i ==> actions[j] == longer[j];
      } else {
        assert forall j :: 0 <= j < i ==> actions[j] == longer[j];
      }
    }
  }

  /** One pass over the actions: who decided preflop, who did so facing a raise, and who then raised. */
  method Scan(actions: seq<StatisticsAction>)
    returns (acted: set<AccountId>, faced: set<AccountId>, threeBets: set<AccountId>)
    ensures forall a :: a in acted <==> Acted(actions, a)
    ensures forall a :: a in faced <==> FacedRaise(actions, a)
    ensures forall a :: a in threeBets <==> ThreeBet(actions, a)
  {
    acted, faced, threeBets := {}, {}, {};
    var raisesSeen := false;
    for i := 0 to |actions|
      invariant Scanned(actions, i, acted, raisesSeen, faced, threeBets)
    {
      var action := actions[i];
      ScanKeeps(actions, i, acted, raisesSeen, faced, threeBets);
      hide Scanned;
      if action.street.Preflop? && !action.action.Show? && !action.action.Muck? {
        acted := acted + {action.accountId};
        if raisesSeen && action.accountId !in faced {
          faced := faced + {action.accountId};
          if action.action.BetOrRaise? {
            threeBets := threeBets + {action.accountId};
          }
        }
        if action.action.BetOrRaise? {
          raisesSeen := true;
        }
      }
    }
    assert actions[..|actions|] == actions;
  }

  lemma ScanKeeps(actions: seq<StatisticsAction>, n: nat, acted: set<AccountId>, raised: bool,
                  faced: set<AccountId>, threeBets: set<AccountId>)
    requires n < |actions| && Scanned(actions, n, acted, raised, faced, threeBets)
    ensures var last := actions[n];
            var who := {last.accountId};
            if !PreflopDecision(last) then Scanned(actions, n + 1, acted, raised, faced, threeBets)
            else
              var newly := raised && last.accountId !in faced;
              Scanned(actions, n + 1, acted + who, raised || Raises(last), if newly then faced + who else faced,
                      if newly && Raises(last) then threeBets + who else threeBets)
  {
    ScanStep(actions, n, raised);
    forall a { ScanOne(actions[..n], actions[n], a); }
    hide Acted, FacedRaise, ThreeBet, PreflopDecision, Raises;
  }

  method PlayerDelta(hand: StatisticsHand, p: StatisticsPlayer, acted: set<AccountId>, faced: set<AccountId>,
                     threeBets: set<AccountId>) returns (delta: PlayerStatistics)
    requires p.accountId in acted <==> Acted(hand.actions, p.accountId)
    requires p.accountId in faced <==> FacedRaise(hand.actions, p.accountId)
    requires p.accountId in threeBets <==> ThreeBet(hand.actions, p.accountId)
    ensures delta == HandDelta(hand, p)
  {
    hide Acted, FacedRaise, ThreeBet, Volunteered, Raised, Decisions, Folds;
    var a := p.accountId;
    var reached := hand.reachedShowdown && !p.folded;
    delta := PlayerStatistics(
      1, One(p.wonChips > 0), 0, 0,
      One(a in acted), One(Volunteered(hand.actions, a)), One(a in acted), One(Raised(hand.actions, a)),
      One(a in faced), One(a in threeBets),
      One(!p.folded), One(reached), One(reached && p.showdown && p.wonChips > 0),
      Decisions(hand.actions, a), Folds(hand.actions, a), One(p.allIn), hand.potAmount, 1,
      map[p.position := 1]);
  }

  /** The scan over the actions, then one entry per player. */
  method ReduceHand(hand: StatisticsHand) returns (r: Result<Totals, StatisticsError>)
    ensures r == ReducedHand(hand)
  {
    hide Acted, FacedRaise, ThreeBet, HandDelta, UniquePlayers, KnownPlayers;
    if !UniquePlayers(hand.players) {
      return Err(DuplicatePlayer);
    }
    if !KnownPlayers(hand) {
      return Err(UnknownActor);
    }
    var actions := hand.actions;
    var acted, faced, threeBets := Scan(actions);
    var deltas: Totals := map[];
    for i := 0 to |hand.players|
      invariant deltas == DeltasOf(hand, hand.players[..i])
    {
      var p := hand.players[i];
      var delta := PlayerDelta(hand, p, acted, faced, threeBets);
      deltas := deltas[p.accountId := delta];
      assert hand.players[..i + 1][..i] == hand.players[..i];
    }
    assert hand.players[..|hand.players|] == hand.players;
    r := Ok(deltas);
  }

  lemma ScanStep(actions: seq<StatisticsAction>, i: nat, raised: bool)
    requires i < |actions|
    requires raised <==> exists j :: 0 <= j < i && PreflopDecision(actions[j]) && Raises(actions[j])
    ensures actions[..i + 1] == actions[..i] + [actions[i]]
    ensures raised <==> exists j :: 0 <= j < |actions[..i]| && PreflopDecision(actions[..i][j]) && Raises(actions[..i][j])
    ensures (raised || (PreflopDecision(actions[i]) && Raises(actions[i]))) <==>
            exists j :: 0 <= j < i + 1 && PreflopDecision(actions[j]) && Raises(actions[j])
  {
    var prefix := actions[..i];
    assert forall j :: 0 <= j < i ==> prefix[j] == actions[j];
    if raised {
      var j :| 0 <= j < i && PreflopDecision(actions[j]) && Raises(actions[j]);
      assert PreflopDecision(prefix[j]) && Raises(prefix[j]);
    }
  }
}
