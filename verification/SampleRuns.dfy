/** Whole runs of concrete matches, played with a small stand-in for the card library. */
module SampleRuns {
  import opened Prelude
  import opened Blinds
  import opened PokerHand
  import opened MatchState
  import opened ActorState
  import opened ActorApply
  import opened ActorRuns
  import opened ActorTheorems
  import opened HandRecords
  import opened BustedButton

  // ---------------------------------------------------------------------------------------------
  // A library for all-in play
  // ---------------------------------------------------------------------------------------------

  predicate ToAct(t: Table) {
    t.actor.Some? && t.actor.value < |t.stacks| == |t.bets|
  }

  /** Whoever is to act bets everything, and the next seat is to act. */
  function Pushed(t: Table): Table {
    if !ToAct(t) then t
    else
      var a := t.actor.value;
      t.(stacks := t.stacks[a := 0], bets := t.bets[a := t.bets[a] + t.stacks[a]],
         actor := Some(NextSeat(a, |t.stacks|)), callAmount := Some(t.stacks[a]))
  }

  /** As much of the amount to call as the actor has. */
  function Affordable(t: Table): int
    requires ToAct(t)
  {
    var stack := t.stacks[t.actor.value];
    if t.callAmount.None? || t.callAmount.value < 0 then 0
    else if t.callAmount.value > stack then stack else t.callAmount.value
  }

  /** Whoever is to act calls; all bets are collected and the hands are shown. */
  function Called(t: Table): Table {
    if !ToAct(t) then t
    else
      var a := t.actor.value;
      t.(stacks := t.stacks[a := t.stacks[a] - Affordable(t)], bets := seq(|t.bets|, _ => 0),
         collected := t.collected + Sum(t.bets) + Affordable(t), actor := None, showdown := Some(a), street := River)
  }

  /** The amount is everything the actor has. */
  predicate Everything(t: Table, amount: int) {
    ToAct(t) && amount == t.bets[t.actor.value] + t.stacks[t.actor.value]
  }

  /** Players push and call all-in; a fold ends the hand, and so does showing. */
  function AllInKit(): PokerKit {
    PokerKit((shuffle, config, blinds, stacks) => FreshTable(stacks), PaidOut, Called, Everything,
             (t, amount) => Pushed(t), (t, status) => true, (t, status) => PaidOut(t))
  }

  lemma PushedFollows(t: Table)
    requires Seated(t, |t.stacks|) && t.actor.Some?
    ensures FollowsFor(t, Pushed(t), t.stacks[t.actor.value])
  {
    var a := t.actor.value;
    SumUpdate(t.stacks, a, 0);
    SumUpdate(t.bets, a, t.bets[a] + t.stacks[a]);
  }

  lemma CalledFollows(t: Table)
    requires Seated(t, |t.stacks|) && t.actor.Some? && t.callAmount.Some?
    ensures FollowsFor(t, Called(t), t.callAmount.value)
  {
    SumUpdate(t.stacks, t.actor.value, t.stacks[t.actor.value] - Affordable(t));
    SumNonNegative(t.bets);
    SumZero(Called(t).bets);
  }

  lemma AllInKitIsLawful()
    ensures Lawful(AllInKit())
  {
    forall t: Table | Seated(t, |t.stacks|) && (t.actor.Some? || t.showdown.Some?) ensures FollowsFor(t, PaidOut(t), 0) {
      PaidOutFollows(t);
    }
    forall t: Table, amount: int | Seated(t, |t.stacks|) && t.actor.Some?
      ensures Everything(t, amount) ==> FollowsFor(t, Pushed(t), amount - t.bets[t.actor.value])
    {
      PushedFollows(t);
    }
    forall t: Table | Seated(t, |t.stacks|) && t.actor.Some? && t.callAmount.Some?
      ensures FollowsFor(t, Called(t), t.callAmount.value)
    {
      CalledFollows(t);
    }
    forall stacks: seq<int> | |stacks| >= 2 && forall i :: 0 <= i < |stacks| ==> stacks[i] >= 1
      ensures Dealt(FreshTable(stacks), stacks)
    {
      SumZero(FreshTable(stacks).bets);
    }
    hide PaidOut, FreshTable, Seated, FollowsFor, Dealt, Pushed, Called, Everything;
  }

  // ---------------------------------------------------------------------------------------------
  // Running a list of events
  // ---------------------------------------------------------------------------------------------

  function RunFrom(kit: PokerKit, w: World, events: seq<Event>): (states: seq<World>)
    ensures |states| == |events| + 1 && states[0] == w
  {
    if events == [] then [w]
    else
      var n := |events| - 1;
      var earlier := RunFrom(kit, w, events[..n]);
      earlier + [Step(kit, earlier[n], events[n])]
  }

  lemma {:induction false} RunFromSteps(kit: PokerKit, w: World, events: seq<Event>, i: nat)
    requires i < |events|
    ensures RunFrom(kit, w, events)[i + 1] == Step(kit, RunFrom(kit, w, events)[i], events[i])
  {
    hide Step;
    var n := |events| - 1;
    if i < n {
      RunFromSteps(kit, w, events[..n], i);
    }
  }

  lemma RunFromIsRun(kit: PokerKit, game: Match, matchId: MatchId, events: seq<Event>)
    requires Lawful(kit) && Ready(game)
    ensures MatchRun(kit, game, RunFrom(kit, Opening(kit, matchId, game, None), events), events)
  {
    hide Lawful, Ready, Step, RunFrom, Start;
    var states := RunFrom(kit, Opening(kit, matchId, game, None), events);
    OpeningFields(kit, matchId, game);
    forall i | 0 <= i < |states| ensures Reached(kit, game, states, events, i) {
      if i > 0 {
        RunFromSteps(kit, states[0], events, i - 1);
      }
    }
  }

  lemma OpeningFields(kit: PokerKit, matchId: MatchId, game: Match)
    ensures var s := Opening(kit, matchId, game, None).actor;
            s.matchId == matchId && s.decisionTimeout.None?
  {
    hide StartHand;
  }

  // ---------------------------------------------------------------------------------------------
  // One turn: a command submitted, applied and answered
  // ---------------------------------------------------------------------------------------------

  function Turn(c: MatchCommand): seq<Event> {
    [SubmitCommand(c), TakeNext, DeliverResult]
  }

  /** Nothing is queued; all ids used so far are below the version. */
  predicate Quiet(w: World, version: nat) {
    && w.actor.stateVersion == version && w.actor.queue == [] && w.actor.delivering.None?
    && (forall id :: id in w.actor.inflight ==> id < version)
    && (forall id :: id in w.actor.processed ==> id < version)
  }

  /** The command is next in the queue of an otherwise quiet actor. */
  predicate Pending(w: World, v: World, c: MatchCommand) {
    && |v.actor.queue| == 1 && v.actor.queue[0].command == c && v.actor.delivering.None?
    && v.actor == w.actor.(queue := v.actor.queue, inflight := v.actor.inflight, futures := v.actor.futures)
    && v.actor.inflight.Keys == w.actor.inflight.Keys + {c.commandId}
    && v == w.(actor := v.actor, owner := v.owner)
  }

  lemma SubmitTurn(kit: PokerKit, w: World, c: MatchCommand)
    requires WorldInv(w) && Quiet(w, c.commandId)
    ensures Pending(w, Step(kit, w, SubmitCommand(c)), c)
  {
    StartedAlways(w);
    hide WorldInv;
  }

  /** A command of a player who says nothing about match, hand or version. */
  function Plain(id: CommandId, account: AccountId, action: ActionType, amount: Option<int>): MatchCommand {
    MatchCommand(id, ActionCommand(account, action, amount), None, None, None, Player, false)
  }

  /** Taking an accepted command off the queue, seen from before it was submitted. */
  lemma TakeTurn(kit: PokerKit, w: World, v: World, c: MatchCommand, s: Actor)
    requires Pending(w, v, c) && Quiet(w, c.commandId)
    requires s == v.actor.(queue := v.actor.queue[1..]) && Apply(kit, s, c).1.Ok?
    requires Apply(kit, s, c).0.stateVersion == s.stateVersion + 1
    ensures var u := Step(kit, v, TakeNext);
            var (t, r) := Apply(kit, s, c);
            && u.actor.game == t.game && u.actor.terminal == t.terminal && u.actor.matchId == t.matchId
            && u.actor.handId == t.handId && u.actor.handActions == t.handActions
            && u.applied == w.applied + [Applied(c, r.value)] && u.lost == w.lost + CommandLoss(s, c)
            && var x := Step(kit, u, DeliverResult);
            && Quiet(x, c.commandId + 1) && x.actor.game == t.game && x.actor.matchId == t.matchId && x.lost == u.lost
  {
    ApplyKeepsQueue(kit, s, c);
    hide Apply;
  }

  /** A turn that does not end the hand. */
  lemma ContinueTurn(kit: PokerKit, w: World, c: MatchCommand, game: Match, applied: AppliedAction)
    requires Lawful(kit) && WorldInv(w) && Quiet(w, c.commandId) && w.actor.game.hand.Some?
    requires c == Plain(c.commandId, c.action.accountId, c.action.action, c.action.amount)
    requires Advance(kit, w.actor.game, c) == Ok((game, applied)) && game.hand.Some? && !game.hand.value.Complete()
    ensures var x := Step(kit, Step(kit, Step(kit, w, SubmitCommand(c)), TakeNext), DeliverResult);
            && Quiet(x, c.commandId + 1) && x.actor.game == game && x.lost == w.lost && x.actor.matchId == w.actor.matchId
  {
    SubmitTurn(kit, w, c);
    StartedAlways(w);
    hide WorldInv, Lawful, Advance, Step, Hand.Complete;
    var v := Step(kit, w, SubmitCommand(c));
    var s := v.actor.(queue := v.actor.queue[1..]);
    ContinueApply(kit, s, c, game, applied);
    TakeTurn(kit, w, v, c, s);
    hide Apply;
  }

  lemma ContinueApply(kit: PokerKit, s: Actor, c: MatchCommand, game: Match, applied: AppliedAction)
    requires s.game.hand.Some? && s.handId.Some?
    requires c == Plain(c.commandId, c.action.accountId, c.action.action, c.action.amount)
    requires Advance(kit, s.game, c) == Ok((game, applied)) && game.hand.Some? && !game.hand.value.Complete()
    ensures var (t, r) := Apply(kit, s, c);
            && r.Ok? && t.game == game && t.stateVersion == s.stateVersion + 1 && t.matchId == s.matchId
            && CommandLoss(s, c) == 0
  {
    hide Advance, PublicView, FinishHand, Stamped;
  }

  /** The hand on the table right after a deal. */
  function FreshHand(ids: seq<AccountId>, stacks: seq<int>): Hand {
    Hand(FreshTable(stacks), ids, stacks, None)
  }

  lemma FreshDeal(m: Match)
    requires Ready(m)
    ensures var (after, error) := StartHand(AllInKit(), m);
            var active := Funded(m.playerIds, m.stacks);
            error.None? && after.hand == Some(FreshHand(active, StacksOf(m.stacks, active)))
  {
    AllInKitIsLawful();
    StartHandSucceeds(AllInKit(), m);
    hide Lawful, Funded, FreshTable, ValidSeating, ValidConfig, HandConfigFor, AmountsFor, ButtonFrom, StacksOf, MatchInv;
  }

  /** The opened match, before anybody has acted. */
  lemma OpenedQuiet(game: Match, matchId: MatchId)
    requires Ready(game)
    ensures var w := Opening(AllInKit(), matchId, game, None);
            var active := Funded(game.playerIds, game.stacks);
            && Quiet(w, 0) && w.lost == 0 && w.actor.matchId == matchId && w.actor.terminal.None?
            && w.actor.game.hand == Some(FreshHand(active, StacksOf(game.stacks, active)))
            && w.actor.game.stacks == game.stacks && w.actor.game.buttonIndex == game.buttonIndex
            && w.actor.game.playerIds == game.playerIds && w.actor.game.rules == game.rules
            && w.actor.game.handNumber == game.handNumber + 1
            && w.actor.game.handPlayerIds == active
  {
    FreshDeal(game);
    AllInKitIsLawful();
    StartHandSucceeds(AllInKit(), game);
    hide Lawful, Funded, FreshTable, StartHand, StacksOf, MatchInv, AllInKit;
    StartInv(AllInKit(), matchId, game, None);
    DealtSeats(StartHand(AllInKit(), game).0);
  }

  lemma DealtSeats(m: Match)
    requires MatchInv(m) && m.hand.Some?
    ensures m.handPlayerIds == m.hand.value.accountIds
  {
  }

  /** A quit aimed at the current state. */
  function Quit(id: CommandId, account: AccountId, matchId: MatchId, handId: HandId, version: int): MatchCommand {
    MatchCommand(id, ActionCommand(account, Fold, None), Some(matchId), Some(handId), Some(version), Player, true)
  }

  /** Such a quit is applied and takes the collected chips with it. */
  lemma QuitTurn(kit: PokerKit, w: World, c: MatchCommand)
    requires Lawful(kit) && WorldInv(w) && Quiet(w, c.commandId) && w.actor.game.hand.Some?
    requires w.actor.game.hand.value.table.active && c.action.accountId in w.actor.game.handPlayerIds
    requires c == Quit(c.commandId, c.action.accountId, w.actor.matchId, w.actor.game.handNumber, w.actor.stateVersion)
    ensures var v := Step(kit, w, SubmitCommand(c));
            var u := Step(kit, v, TakeNext);
            && Pending(w, v, c)
            && Apply(kit, v.actor.(queue := v.actor.queue[1..]), c).1.Ok?
            && u.actor.game == Apply(kit, v.actor.(queue := v.actor.queue[1..]), c).0.game
            && u.actor.terminal == Apply(kit, v.actor.(queue := v.actor.queue[1..]), c).0.terminal
            && |u.applied| == |w.applied| + 1 && u.applied[..|w.applied|] == w.applied && u.applied[|w.applied|].command == c
            && u.applied[|w.applied|].result == Apply(kit, v.actor.(queue := v.actor.queue[1..]), c).1.value
            && u.lost == w.lost + w.actor.game.hand.value.table.collected
            && Quiet(Step(kit, u, DeliverResult), c.commandId + 1) && Step(kit, u, DeliverResult).actor.game == u.actor.game
  {
    SubmitTurn(kit, w, c);
    Invariants(w);
    hide WorldInv, Lawful, Step, Apply, Pending, Quiet, TakeStep;
    var v := Step(kit, w, SubmitCommand(c));
    PendingActor(w, v, c);
    var s := v.actor.(queue := v.actor.queue[1..]);
    ActorFrame(w.actor, s);
    QuitApplies(kit, s, c);
    ApplyAllOrNothing(kit, s, c);
    TakeTurn(kit, w, v, c, s);
  }

  lemma PendingActor(w: World, v: World, c: MatchCommand)
    requires Pending(w, v, c)
    ensures |v.actor.queue| == 1
    ensures v.actor == w.actor.(queue := v.actor.queue, inflight := v.actor.inflight, futures := v.actor.futures)
    ensures v.applied == w.applied
  {
  }

  lemma QuitApplies(kit: PokerKit, s: Actor, c: MatchCommand)
    requires Lawful(kit) && ActorInv(s) && s.game.hand.Some?
    requires s.game.hand.value.table.active && c.action.accountId in s.game.handPlayerIds
    requires c == Quit(c.commandId, c.action.accountId, s.matchId, s.game.handNumber, s.stateVersion)
    ensures Apply(kit, s, c).1.Ok? && CommandLoss(s, c) == s.game.hand.value.table.collected
  {
    HandIds(s);
    GameValid(s);
    QuitHandInv(s.game, c.action.accountId);
    hide ActorInv, MatchInv, Apply, QuitHand, Lawful;
    AcceptedWhenEngineAccepts(kit, s, c);
  }

  // ---------------------------------------------------------------------------------------------
  // Two players all-in, and one of them leaves
  // ---------------------------------------------------------------------------------------------

  function HeadsUp(): RoomRules {
    RoomRules(2, WinnerTakesAll, None, 100, 1, 2, 0, None, 2, true, true)
  }

  lemma PushAndCall(game: Match)
    requires game.hand == Some(FreshHand([7, 8], [100, 100]))
    ensures var h := game.hand.value;
            var pushed := game.(hand := Some(h.(table := Pushed(h.table))));
            var called := game.(hand := Some(h.(table := Called(Pushed(h.table)))));
            && Advance(AllInKit(), game, Plain(0, 7, BetOrRaise, Some(100))) ==
               Ok((pushed, AppliedAction(7, BetOrRaise, Some(100))))
            && Advance(AllInKit(), pushed, Plain(1, 8, CheckOrCall, None)) ==
               Ok((called, AppliedAction(8, CheckOrCall, Some(100))))
            && !pushed.hand.value.Complete() && !called.hand.value.Complete()
            && called.hand.value.table.stacks == [0, 0] && called.hand.value.table.collected == 200
            && called.hand.value.table.showdown == Some(1)
  {
    SeatOf([7, 8], 0);
    SeatOf([7, 8], 1);
    PairSum(100, 0);
    var t := game.hand.value.table;
    assert t.bets == [0, 0];
    assert Pushed(t).stacks == [0, 100] && Pushed(t).bets == [100, 0];
    assert Called(Pushed(t)).stacks == [0, 0];
  }

  function HeadsUpMatch(): Match {
    Match(HeadsUp(), [7, 8], 0, map[7 := 100, 8 := 100], 0, None, [], None, Active)
  }

  lemma HeadsUpReady()
    ensures ValidRules(HeadsUp()) && NewMatch([7, 8], HeadsUp(), 0) == Ok(HeadsUpMatch()) && Ready(HeadsUpMatch())
    ensures Funded([7, 8], HeadsUpMatch().stacks) == [7, 8]
    ensures StacksOf(HeadsUpMatch().stacks, [7, 8]) == [100, 100]
  {
    hide Funded, Sum;
    assert (map account | account in [7, 8] :: 100) == map[7 := 100, 8 := 100];
    NewMatchInv([7, 8], HeadsUp(), 0);
    PairFunded(7, 8, HeadsUpMatch().stacks);
  }

  function AllInEvents(): seq<Event> {
    Turn(Plain(0, 7, BetOrRaise, Some(100))) + Turn(Plain(1, 8, CheckOrCall, None)) + Turn(Quit(2, 8, 0, 1, 2))
  }

  lemma AllInEventsAre()
    ensures var e := AllInEvents();
            && |e| == 9
            && e[..3] == Turn(Plain(0, 7, BetOrRaise, Some(100))) && e[3..6] == Turn(Plain(1, 8, CheckOrCall, None))
            && e[6..] == Turn(Quit(2, 8, 0, 1, 2))
  {
  }

  function AllInStates(): (states: seq<World>)
    ensures |states| == |AllInEvents()| + 1
  {
    RunFrom(AllInKit(), Opening(AllInKit(), 0, HeadsUpMatch(), None), AllInEvents())
  }

  lemma AllInRun()
    ensures MatchRun(AllInKit(), HeadsUpMatch(), AllInStates(), AllInEvents())
  {
    hide Step, Lawful, AllInEvents, AllInKit, RunFrom;
    AllInKitIsLawful();
    HeadsUpReady();
    RunFromIsRun(AllInKit(), HeadsUpMatch(), 0, AllInEvents());
  }

  /** Three events on from a state of a run, when they are one turn. */
  lemma TurnAt(kit: PokerKit, game: Match, states: seq<World>, events: seq<Event>, i: nat, c: MatchCommand)
    requires MatchRun(kit, game, states, events) && i + 3 <= |events| && events[i..i + 3] == Turn(c)
    ensures |states| == |events| + 1 && states[i + 1] == Step(kit, states[i], SubmitCommand(c))
    ensures states[i + 2] == Step(kit, states[i + 1], TakeNext) && states[i + 3] == Step(kit, states[i + 2], DeliverResult)
    ensures WorldInv(states[i]) && Lawful(kit)
  {
    hide Step, MatchRun, WorldInv, Lawful;
    StepAt(kit, game, states, events, i);
    StepAt(kit, game, states, events, i + 1);
    StepAt(kit, game, states, events, i + 2);
    var turn := events[i..i + 3];
    assert turn[0] == events[i] && turn[1] == events[i + 1] && turn[2] == events[i + 2];
    RunInv(kit, game, states, events, i);
  }

  /** After push and call both stacks are in the pot and the showdown is on. */
  lemma AllInReached()
    ensures var w := AllInStates()[6];
            && |AllInEvents()| == 9 && Quiet(w, 2) && w.lost == 0 && w.actor.matchId == 0 && w.actor.game.hand.Some?
            && var t := w.actor.game.hand.value.table;
            && t.active && t.stacks == [0, 0] && t.collected == 200 && t.showdown == Some(1)
            && w.actor.game.handPlayerIds == [7, 8] && w.actor.game.handNumber == 1
  {
    hide Step, WorldInv, Lawful, MatchRun, Quiet, AllInKit, RunFrom, Opening, AllInEvents, Pushed, Called, StacksOf, Advance;
    HeadsUpReady();
    AllInEventsAre();
    OpenedQuiet(HeadsUpMatch(), 0);
    AllInRun();
    var states, events, kit := AllInStates(), AllInEvents(), AllInKit();
    TurnAt(kit, HeadsUpMatch(), states, events, 0, Plain(0, 7, BetOrRaise, Some(100)));
    TurnAt(kit, HeadsUpMatch(), states, events, 3, Plain(1, 8, CheckOrCall, None));
    var dealt := states[0].actor.game;
    PushAndCall(dealt);
    var h := dealt.hand.value;
    var pushed := dealt.(hand := Some(h.(table := Pushed(h.table))));
    var called := dealt.(hand := Some(h.(table := Called(Pushed(h.table)))));
    ContinueTurn(kit, states[0], Plain(0, 7, BetOrRaise, Some(100)), pushed, AppliedAction(7, BetOrRaise, Some(100)));
    ContinueTurn(kit, states[3], Plain(1, 8, CheckOrCall, None), called, AppliedAction(8, CheckOrCall, Some(100)));
  }

  /**
   * A run of a match that opens with two hundred chips and ends with none: both players go all-in and one of
   * them quits before the showdown.
   */
  lemma EmptyTableReached()
    ensures var game, states := NewMatch([7, 8], HeadsUp(), 0).value, AllInStates();
            && ValidRules(HeadsUp()) && NewMatch([7, 8], HeadsUp(), 0).Ok?
            && MatchRun(AllInKit(), game, states, AllInEvents()) && |AllInEvents()| == 9
            && TotalChips(states[0].actor.game) == 200
            && TotalChips(states[9].actor.game) == 0 && states[9].actor.game.status.Complete?
  {
    hide Step, WorldInv, Lawful, MatchRun, Quiet, AllInKit, RunFrom, Opening, AllInEvents, NewMatch, TotalChips, Apply;
    hide ValidRules, Ready;
    HeadsUpReady();
    AllInEventsAre();
    AllInRun();
    AllInReached();
    var states, events, kit, game := AllInStates(), AllInEvents(), AllInKit(), HeadsUpMatch();
    var c := Quit(2, 8, 0, 1, 2);
    TurnAt(kit, game, states, events, 6, c);
    OpeningInv(kit, game, states, events);
    ChipAccounting(kit, [7, 8], HeadsUp(), 0, states, events, 0);
    QuietVersion(states[6], 2);
    QuitTurn(kit, states[6], c);
    assert states[8].lost == 200;
    RunContinues(kit, game, states, events, 8, 9);
    ChipAccounting(kit, [7, 8], HeadsUp(), 0, states, events, 8);
    RunInv(kit, game, states, events, 9);
    BrokeEnds(states[9]);
  }

  lemma QuietVersion(w: World, version: nat)
    requires Quiet(w, version)
    ensures w.actor.stateVersion == version
  {
  }

  lemma BrokeEnds(w: World)
    requires WorldInv(w) && TotalChips(w.actor.game) == 0
    ensures w.actor.game.status.Complete?
  {
    hide TotalChips;
    BrokeMatchEnds(w.actor.game);
    if w.actor.game.hand.Some? {
      DealtMeansChips(w.actor.game);
    }
  }

  lemma DealtMeansChips(m: Match)
    requires MatchInv(m) && m.hand.Some?
    ensures TotalChips(m) > 0
  {
    FundedHoldsChips(m.playerIds, m.stacks);
  }

  // ---------------------------------------------------------------------------------------------
  // The player next to the button leaves, and the next hand cannot be taken live
  // ---------------------------------------------------------------------------------------------

  function ThreeSeats(): Match {
    var rules := RoomRules(3, WinnerTakesAll, None, 100, 1, 2, 0, None, 2, true, true);
    Match(rules, [1, 2, 3], 0, map[1 := 100, 2 := 100, 3 := 100], 0, None, [], None, Active)
  }

  lemma ThreeReady()
    ensures ValidRules(ThreeSeats().rules)
    ensures NewMatch([1, 2, 3], ThreeSeats().rules, 0) == Ok(ThreeSeats()) && Ready(ThreeSeats())
    ensures Funded([1, 2, 3], ThreeSeats().stacks) == [1, 2, 3]
    ensures StacksOf(ThreeSeats().stacks, [1, 2, 3]) == [100, 100, 100]
  {
    hide Funded, Sum;
    assert (map account | account in [1, 2, 3] :: 100) == map[1 := 100, 2 := 100, 3 := 100];
    NewMatchInv([1, 2, 3], ThreeSeats().rules, 0);
    FundedAll([1, 2, 3], ThreeSeats().stacks);
  }

  /** Account 2 quits: its chips go to the others in equal parts, and the match goes on. */
  lemma MiddleQuits(m: Match)
    requires MatchInv(m) && m.hand == Some(FreshHand([1, 2, 3], [100, 100, 100])) && m.playerIds == [1, 2, 3]
    requires m.rules.endMode.WinnerTakesAll?
    ensures QuitHand(m, 2).Ok? && SettleHand(QuitHand(m, 2).value.0).Ok?
    ensures var settled := SettleHand(QuitHand(m, 2).value.0).value.0;
            settled.status.Active? && settled.playerIds == [1, 2, 3] && StackOf(settled.stacks, 1) == 150
  {
    DealtSeats(m);
    QuitHandInv(m, 2);
    var game := QuitHand(m, 2).value.0;
    SettleHandInv(game);
    MiddleFinals(m);
    hide QuitHand, MatchInv, Seats, TotalChips;
    var settled := SettleHand(game).value.0;
    hide SettleHand, MatchIsComplete;
    DealtDistinct(game);
    var dealt := game.handPlayerIds;
    DepositedAt(game.stacks, dealt, [150, 0, 150], 0);
    DepositedAt(game.stacks, dealt, [150, 0, 150], 2);
    TwoFunded(settled);
  }

  lemma MiddleFinals(m: Match)
    requires m.hand == Some(FreshHand([1, 2, 3], [100, 100, 100])) && m.handPlayerIds == [1, 2, 3]
    requires QuitHand(m, 2).Ok?
    ensures var game := QuitHand(m, 2).value.0;
            && game == m.(hand := game.hand) && game.hand.Some? && Settle(game.hand.value).Ok?
            && Settle(game.hand.value).value.finalStacks == [150, 0, 150]
  {
    SeatOf([1, 2, 3], 1);
    hide PlayerIndex;
    var t := FreshTable([100, 100, 100]);
    assert t.bets == [0, 0, 0];
    assert QuitPayouts(3, 1, 100) == [50, 0, 50];
    assert QuitSettlement(t, [100, 100, 100], 1).finalStacks == [150, 0, 150];
  }

  lemma TwoFunded(m: Match)
    requires m.playerIds == [1, 2, 3] && StackOf(m.stacks, 1) > 0 && StackOf(m.stacks, 3) > 0
    requires m.rules.endMode.WinnerTakesAll?
    ensures !MatchIsComplete(m)
  {
    FundedMembers(m.playerIds, m.stacks);
    var funded := Funded(m.playerIds, m.stacks);
    hide Funded;
    var i :| 0 <= i < |funded| && funded[i] == 1;
    var j :| 0 <= j < |funded| && funded[j] == 3;
    assert i != j;
  }

  /** A quit after which the match goes on: the next hand is on the table. */
  lemma QuitGoesOn(s: Actor, c: MatchCommand)
    requires ActorInv(s) && s.game.hand.Some? && Apply(AllInKit(), s, c).1.Ok? && c.quit
    requires QuitHand(s.game, c.action.accountId).Ok?
    requires SettleHand(QuitHand(s.game, c.action.accountId).value.0).Ok?
    requires SettleHand(QuitHand(s.game, c.action.accountId).value.0).value.0.status.Active?
    ensures var t := Apply(AllInKit(), s, c).0;
            && t.terminal.None? && t.game.hand.Some? && |t.game.hand.value.accountIds| >= 2
            && t.game.stacks == SettleHand(QuitHand(s.game, c.action.accountId).value.0).value.0.stacks
            && t.game.hand.value.accountIds == Funded(s.game.playerIds, t.game.stacks)
            && t.game.hand.value == FreshHand(t.game.hand.value.accountIds, StacksOf(t.game.stacks, t.game.hand.value.accountIds))
  {
    GameValid(s);
    HandIds(s);
    var game := QuitHand(s.game, c.action.accountId).value.0;
    QuitHandInv(s.game, c.action.accountId);
    SettleHandInv(game);
    BlindsSet(game);
    var settled := SettleHand(game).value.0;
    var t := Apply(AllInKit(), s, c).0;
    hide MatchInv, QuitHand, SettleHand, StartHand, PublicView, Stamped, AllInKit, StacksOf, FreshHand, Lawful, Funded;
    AllInKitIsLawful();
    StartHandSucceeds(AllInKit(), settled);
    FreshDeal(settled);
    assert t.game == StartHand(AllInKit(), settled).0;
    FreshShape(t.game);
  }

  lemma FreshShape(m: Match)
    requires MatchInv(m) && m.hand == Some(FreshHand(Funded(m.playerIds, m.stacks), StacksOf(m.stacks, Funded(m.playerIds, m.stacks))))
    ensures m.hand.value.accountIds == Funded(m.playerIds, m.stacks) && |m.hand.value.accountIds| >= 2
  {
  }

  /** The first move of a fresh hand, a fold, ends it. */
  lemma FoldEnds(m: Match, id: CommandId)
    requires MatchInv(m) && m.hand.Some? && m.hand.value.quit.None?
    requires m.hand.value == FreshHand(m.hand.value.accountIds, StacksOf(m.stacks, m.hand.value.accountIds))
    ensures |m.hand.value.accountIds| >= 2
    ensures var h := m.hand.value;
            var game := m.(hand := Some(h.(table := PaidOut(h.table))));
            && Advance(AllInKit(), m, Plain(id, h.accountIds[0], Fold, None)) ==
               Ok((game, AppliedAction(h.accountIds[0], Fold, None)))
            && game.hand.value.Complete()
  {
    var h := m.hand.value;
    DealtSeats(m);
    DealtDistinct(m);
    SeatOf(h.accountIds, 0);
  }

  /** The hand such a fold completes can be indexed by its players throughout. */
  lemma FoldShape(s: Actor, m: Match)
    requires MatchInv(m) && m.hand.Some? && m.hand.value.quit.None? && m.handBlinds.Some? && s.handId.Some?
    requires s.game == m.(hand := Some(m.hand.value.(table := PaidOut(m.hand.value.table))))
    requires s.game.hand.value.Complete()
    ensures Settle(s.game.hand.value).Ok? && WellShaped(CompletedFrom(s, Settle(s.game.hand.value).value))
  {
    hide Funded, StacksOf, Sum;
  }

  lemma EndApply(kit: PokerKit, s: Actor, c: MatchCommand, game: Match, applied: AppliedAction)
    requires Lawful(kit) && ActorInv(s) && s.game.hand.Some? && game.hand.Some? && game.hand.value.Complete()
    requires c == Plain(c.commandId, c.action.accountId, c.action.action, c.action.amount)
    requires Advance(kit, s.game, c) == Ok((game, applied))
    ensures var (t, r) := Apply(kit, s, c);
            && r.Ok? && t.stateVersion == s.stateVersion + 1 && r.value.completed.Some?
            && Settle(game.hand.value).Ok?
            && game.handBlinds.Some? && s.handId.Some?
            && var logged := Logged(s, game, PublicView(s.game.hand.value).street, applied);
            r.value.completed.value == CompletedFrom(logged, Settle(game.hand.value).value)
  {
    HandIds(s);
    hide ActorInv, MatchInv, Advance, PublicView, Lawful, Hand.Complete, TotalChips, FinishHand, LogGrew, ChipsKept, Settle;
    AcceptedWhenEngineAccepts(kit, s, c);
    ApplyAllOrNothing(kit, s, c);
    FinishCompletes(kit, Logged(s, game, PublicView(s.game.hand.value).street, applied), c, applied);
  }

  /** A fresh hand on the table, with its first player about to fold. */
  predicate FreshFold(m: Match, c: MatchCommand) {
    && m.hand.Some? && |m.hand.value.accountIds| >= 2
    && m.hand.value == FreshHand(m.hand.value.accountIds, StacksOf(m.stacks, m.hand.value.accountIds))
    && c == Plain(c.commandId, m.hand.value.accountIds[0], Fold, None)
  }

  lemma FoldApplies(s: Actor, c: MatchCommand)
    requires ActorInv(s) && FreshFold(s.game, c)
    ensures var (t, r) := Apply(AllInKit(), s, c);
            && r.Ok? && t.stateVersion == s.stateVersion + 1 && r.value.completed.Some?
            && WellShaped(r.value.completed.value)
  {
    HandIds(s);
    GameValid(s);
    AllInKitIsLawful();
    FoldEnds(s.game, c.commandId);
    hide Lawful, Apply, ActorInv, MatchInv, AllInKit, FreshHand, StacksOf, PaidOut, Advance, WellShaped, Settle;
    hide Hand.Complete, Stamped, PublicView;
    var h := s.game.hand.value;
    var game := s.game.(hand := Some(h.(table := PaidOut(h.table))));
    var applied := AppliedAction(h.accountIds[0], Fold, None);
    EndApply(AllInKit(), s, c, game, applied);
    BlindsSet(s.game);
    FoldShape(Logged(s, game, PublicView(h).street, applied), s.game);
  }

  /** Submitting and taking that fold. */
  lemma FoldTurn(w: World, c: MatchCommand)
    requires WorldInv(w) && Quiet(w, c.commandId) && FreshFold(w.actor.game, c)
    ensures var v := Step(AllInKit(), w, SubmitCommand(c));
            var u := Step(AllInKit(), v, TakeNext);
            && v.actor.game == w.actor.game && v.applied == w.applied && |u.applied| == |w.applied| + 1 && u.applied[..|w.applied|] == w.applied
            && u.applied[|w.applied|].command == c
            && u.applied[|w.applied|].result.completed.Some?
            && WellShaped(u.applied[|w.applied|].result.completed.value)
  {
    hide WorldInv, Step, Apply, Pending, Quiet, TakeStep, ActorInv, AllInKit, FreshFold, WellShaped;
    SubmitTurn(AllInKit(), w, c);
    Invariants(w);
    var v := Step(AllInKit(), w, SubmitCommand(c));
    PendingActor(w, v, c);
    var s := v.actor.(queue := v.actor.queue[1..]);
    ActorFrame(w.actor, s);
    FoldApplies(s, c);
    TakeTurn(AllInKit(), w, v, c, s);
  }

  function QuitThenFold(): seq<Event> {
    Turn(Quit(0, 2, 0, 1, 0)) + Turn(Plain(1, 1, Fold, None))
  }

  function QuitThenFoldStates(): (states: seq<World>)
    ensures |states| == |QuitThenFold()| + 1
  {
    RunFrom(AllInKit(), Opening(AllInKit(), 0, ThreeSeats(), None), QuitThenFold())
  }

  lemma QuitThenFoldRun()
    ensures MatchRun(AllInKit(), ThreeSeats(), QuitThenFoldStates(), QuitThenFold())
    ensures var e := QuitThenFold();
            |e| == 6 && e[0..3] == Turn(Quit(0, 2, 0, 1, 0)) && e[3..6] == Turn(Plain(1, 1, Fold, None))
  {
    hide Step, Lawful, AllInKit, RunFrom, ThreeSeats, MatchRun, Ready;
    QuitThenFoldParts();
    hide QuitThenFold;
    AllInKitIsLawful();
    ThreeReady();
    RunFromIsRun(AllInKit(), ThreeSeats(), 0, QuitThenFold());
  }

  lemma QuitThenFoldParts()
    ensures var e := QuitThenFold();
            |e| == 6 && e[0..3] == Turn(Quit(0, 2, 0, 1, 0)) && e[3..6] == Turn(Plain(1, 1, Fold, None))
  {
  }

  lemma {:induction false} FirstFunded(ids: seq<AccountId>, stacks: map<AccountId, int>)
    requires ids != [] && StackOf(stacks, ids[0]) > 0
    ensures Funded(ids, stacks) != [] && Funded(ids, stacks)[0] == ids[0]
  {
    if |ids| > 1 {
      FirstFunded(ids[..|ids| - 1], stacks);
    }
  }

  lemma MiddleGone(s: Actor, c: MatchCommand)
    requires ActorInv(s) && s.game.hand == Some(FreshHand([1, 2, 3], [100, 100, 100])) && s.game.playerIds == [1, 2, 3]
    requires s.game.rules.endMode.WinnerTakesAll?
    requires c.quit && c.action.accountId == 2 && Apply(AllInKit(), s, c).1.Ok?
    ensures FreshFold(Apply(AllInKit(), s, c).0.game, Plain(1, 1, Fold, None))
    ensures Apply(AllInKit(), s, c).0.terminal.None?
  {
    GameValid(s);
    hide ActorInv, MatchInv, Apply, AllInKit, FreshHand, StacksOf, QuitHand, SettleHand, Funded;
    MiddleQuits(s.game);
    QuitGoesOn(s, c);
    FirstFunded([1, 2, 3], Apply(AllInKit(), s, c).0.game.stacks);
  }

  /** The opened match, up to the submission of the quit. */
  lemma QuitSubmitted()
    ensures var states, s := QuitThenFoldStates(), QuitThenFoldStates()[0].actor;
            && |states| == 7 && Quiet(states[0], 0) && WorldInv(states[0]) && s.matchId == 0 && s.game.handNumber == 1
            && s.game.hand == Some(FreshHand([1, 2, 3], [100, 100, 100])) && s.game.playerIds == [1, 2, 3]
            && s.game.handPlayerIds == [1, 2, 3] && s.game.rules.endMode.WinnerTakesAll? && s.game.buttonIndex == 0
  {
    hide Step, WorldInv, Lawful, MatchRun, Quiet, AllInKit, RunFrom, Opening, QuitThenFold, StacksOf, Ready;
    ThreeReady();
    QuitThenFoldRun();
    OpenedQuiet(ThreeSeats(), 0);
    RunInv(AllInKit(), ThreeSeats(), QuitThenFoldStates(), QuitThenFold(), 0);
  }

  /** Account 2 is gone, account 1 is to act first in the next hand. */
  lemma SecondHand()
    ensures var states := QuitThenFoldStates();
            && |states| == 7 && EndsHand(states[1], states[2]) && Newest(states[2]).command == Quit(0, 2, 0, 1, 0)
            && states[1].actor.game == states[0].actor.game && Quiet(states[3], 1)
            && states[3].actor.game == states[2].actor.game && states[2].actor.terminal.None?
            && FreshFold(states[3].actor.game, Plain(1, 1, Fold, None))
  {
    hide Step, WorldInv, Lawful, MatchRun, Quiet, AllInKit, QuitThenFoldStates, QuitThenFold, Pending, Apply, ActorInv;
    hide FreshFold, AppliedOnce, FreshHand;
    QuitThenFoldRun();
    QuitSubmitted();
    var states, events, kit, c := QuitThenFoldStates(), QuitThenFold(), AllInKit(), Quit(0, 2, 0, 1, 0);
    TurnAt(kit, ThreeSeats(), states, events, 0, c);
    QuietVersion(states[0], 0);
    FreshIsActive(states[0].actor.game);
    QuitTurn(kit, states[0], c);
    PendingActor(states[0], states[1], c);
    var s := states[1].actor.(queue := states[1].actor.queue[1..]);
    Invariants(states[0]);
    ActorFrame(states[0].actor, s);
    MiddleGone(s, c);
    ApplyAllOrNothing(kit, s, c);
    QuitCompletes(s, Apply(kit, s, c).0, c, Apply(kit, s, c).1.value);
  }

  lemma FreshIsActive(m: Match)
    requires m.hand == Some(FreshHand([1, 2, 3], [100, 100, 100]))
    ensures m.hand.value.table.active
  {
  }

  lemma QuitCompletes(s: Actor, t: Actor, c: MatchCommand, result: CommandResult)
    requires AppliedOnce(s, t, c, result) && c.quit
    ensures result.completed.Some?
  {
  }

  /** Account 1 folds, which ends the second hand. */
  lemma SecondEnded()
    ensures var states := QuitThenFoldStates();
            && |states| == 7 && states[4].actor.game == states[3].actor.game
            && EndsHand(states[4], states[5]) && WellShaped(Ended(states[4], states[5]))
            && Newest(states[5]).command == Plain(1, 1, Fold, None)
  {
    hide Step, WorldInv, Lawful, MatchRun, Quiet, AllInKit, QuitThenFoldStates, QuitThenFold, FreshFold, WellShaped;
    QuitThenFoldRun();
    SecondHand();
    TurnAt(AllInKit(), ThreeSeats(), QuitThenFoldStates(), QuitThenFold(), 3, Plain(1, 1, Fold, None));
    FoldTurn(QuitThenFoldStates()[3], Plain(1, 1, Fold, None));
  }

  /**
   * Account 2 sits next to the button and quits the first hand; accounts 1 and 3 play the second one, which
   * ends with a fold. Its displayed button is account 2, so it cannot be taken live.
   */
  lemma QuitBreaksNextHand()
    ensures var states := QuitThenFoldStates();
            && Ready(ThreeSeats()) && MatchRun(AllInKit(), ThreeSeats(), states, QuitThenFold()) && |states| == 7
            && EndsHand(states[4], states[5]) && WellShaped(Ended(states[4], states[5]))
            && Ended(states[4], states[5]).buttonAccountId == 2 && Newest(states[5]).command == Plain(1, 1, Fold, None)
            && LiveHand(0, Ended(states[4], states[5])) == Err(ButtonNotSeated)
  {
    hide WorldInv, Lawful, MatchRun, Quiet, AllInKit, QuitThenFoldStates, FreshFold, WellShaped, Plain, LiveHand, EndsHand;
    hide FreshHand, Ready, Ended;
    ThreeReady();
    QuitThenFoldRun();
    SecondHand();
    SecondEnded();
    QuitSubmitted();
    var states, events, kit := QuitThenFoldStates(), QuitThenFold(), AllInKit();
    hide QuitThenFold, ThreeSeats;
    EndedFields(kit, ThreeSeats(), states, events, 1);
    EndedFields(kit, ThreeSeats(), states, events, 4);
    MatchIdKept(kit, ThreeSeats(), states, events, 1);
    QuitFailsNextHand(kit, ThreeSeats(), states, events, 1, 4);
  }

  lemma MatchIdKept(kit: PokerKit, game: Match, states: seq<World>, events: seq<Event>, i: nat)
    requires MatchRun(kit, game, states, events) && i < |states|
    ensures states[i].actor.matchId == states[0].actor.matchId
  {
    hide MatchRun, TotalChips, StackOf;
    RunContinues(kit, game, states, events, 0, i);
  }
}
