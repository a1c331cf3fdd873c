/** Which hands of a match the live statistics cannot take, seen over whole runs. */
module BustedButton {
  import opened Prelude
  import opened PokerHand
  import opened MatchState
  import opened ActorState
  import opened ActorApply
  import opened ActorRuns
  import opened ActorTheorems
  import opened HandRecords

  /** The seat the button is displayed at. */
  function Displayed(m: Match): AccountId
    requires m.buttonIndex < |m.playerIds|
  {
    m.playerIds[m.buttonIndex]
  }

  /** The seat the button moves to next. */
  function NextDisplayed(m: Match): AccountId
    requires m.playerIds != []
  {
    m.playerIds[NextSeat(m.buttonIndex, |m.playerIds|)]
  }

  /** Same deal: seats, button and the stacks the hand was dealt with. */
  predicate SameDeal(m: Match, n: Match) {
    n.playerIds == m.playerIds && n.stacks == m.stacks && n.buttonIndex == m.buttonIndex
  }

  /** The button has moved on by one seat. */
  predicate ButtonMoved(m: Match, n: Match) {
    n.playerIds == m.playerIds && m.playerIds != [] && n.buttonIndex == NextSeat(m.buttonIndex, |m.playerIds|)
  }

  lemma ButtonSeated(m: Match)
    requires MatchInv(m)
    ensures m.buttonIndex < |m.playerIds| && ButtonAccount(m) == Displayed(m)
  {
  }

  // ---------------------------------------------------------------------------------------------
  // One command
  // ---------------------------------------------------------------------------------------------

  /** The completed hand names the displayed seat, and fails to convert exactly when that seat had no chips at the deal. */
  predicate FailsWhenBusted(m: Match, matchId: MatchId, c: CompletedHand)
    requires m.buttonIndex < |m.playerIds|
  {
    && c.buttonAccountId == Displayed(m)
    && (WellShaped(c) ==> (LiveHand(matchId, c).Err? <==> StackOf(m.stacks, Displayed(m)) == 0))
  }

  /** After a hand either the next one is dealt from where it left the match, or the match is frozen. */
  lemma FinishDeals(kit: PokerKit, s: Actor, c: MatchCommand, applied: AppliedAction)
    requires SettleHand(s.game).Ok? && s.terminal.None? && FinishHand(kit, s, c, applied).1.Ok?
    ensures var (t, r) := FinishHand(kit, s, c, applied);
            var game := SettleHand(s.game).value.0;
            t.terminal.None? ==> game.status.Active? && t.game == StartHand(kit, game).0
  {
    hide SettleHand, StartHand, Stamped;
  }

  lemma FinishShows(kit: PokerKit, s: Actor, c: MatchCommand, applied: AppliedAction)
    requires Lawful(kit) && MatchInv(s.game) && s.game.hand.Some? && s.game.hand.value.Complete()
    requires s.handId == Some(s.game.handNumber) && s.terminal.None?
    requires s.game.buttonIndex < |s.game.playerIds|
    ensures var (t, r) := FinishHand(kit, s, c, applied);
            && r.Ok? && r.value.completed.Some?
            && FailsWhenBusted(s.game, s.matchId, r.value.completed.value)
            && (t.terminal.None? ==> ButtonMoved(s.game, t.game) && SettleHand(s.game).Ok?
                                     && t.game.stacks == SettleHand(s.game).value.0.stacks)
  {
    hide MatchInv, SettleHand, StartHand, Lawful, Hand.Complete, WellShaped, Stamped, StackOf, LiveHand, FinishHand;
    SettleHandInv(s.game);
    FinishHandInv(kit, s, c, applied);
    FinishCompletes(kit, s, c, applied);
    var (game, settlement) := SettleHand(s.game).value;
    if WellShaped(CompletedFrom(s, settlement)) {
      LiveFailsOnBustedButton(s, settlement);
    }
    if game.status.Active? {
      StartHandSucceeds(kit, game);
    }
    FinishDeals(kit, s, c, applied);
  }

  /** A settled quit leaves the quitter nothing. */
  lemma QuitterSettled(m: Match, game: Match, account: AccountId)
    requires MatchInv(m) && m.hand.Some? && m.hand.value.quit.None? && QuitHand(m, account).Ok?
    requires game == QuitHand(m, account).value.0
    ensures SettleHand(game).Ok? && StackOf(SettleHand(game).value.0.stacks, account) == 0
  {
    QuitHandInv(m, account);
    SettleHandInv(game);
    QuitFinals(m, game, account);
    hide QuitHand, MatchInv, StackOf, MatchIsComplete;
    DealtDistinct(game);
    var finals := Settle(game.hand.value).value.finalStacks;
    DepositedAt(game.stacks, game.handPlayerIds, finals, PlayerIndex(game.handPlayerIds, account).value);
  }

  lemma QuitFinals(m: Match, game: Match, account: AccountId)
    requires MatchInv(m) && m.hand.Some? && m.hand.value.quit.None? && QuitHand(m, account).Ok?
    requires game == QuitHand(m, account).value.0
    ensures game.hand.Some? && Settle(game.hand.value).Ok? && account in game.handPlayerIds
    ensures var finals, q := Settle(game.hand.value).value.finalStacks, PlayerIndex(game.handPlayerIds, account).value;
            |finals| == |game.handPlayerIds| && finals[q] == 0
  {
    hide QuitPayouts, Funded, StacksOf, Chips;
  }

  lemma DealtDistinct(m: Match)
    requires MatchInv(m)
    ensures Distinct(m.handPlayerIds)
  {
    FundedMembers(m.playerIds, m.stacks);
  }

  lemma DepositedAt(stacks: map<AccountId, int>, ids: seq<AccountId>, finals: seq<int>, q: nat)
    requires |ids| == |finals| && Distinct(ids) && q < |ids|
    ensures StackOf(Deposit(stacks, ids, finals), ids[q]) == finals[q]
  {
    DepositAt(stacks, ids, finals);
    assert StacksOf(Deposit(stacks, ids, finals), ids)[q] == finals[q];
  }

  /** What one accepted command does to the deal it was played in, and to the next one. */
  ghost predicate Dealing(s: Actor, t: Actor, c: MatchCommand, result: CommandResult)
    requires s.game.buttonIndex < |s.game.playerIds|
  {
    && (result.completed.None? ==> t.terminal.None? && SameDeal(s.game, t.game) && t.game.handNumber == s.game.handNumber)
    && (result.completed.Some? ==>
          && result.completed.value.handId == s.game.handNumber
          && FailsWhenBusted(s.game, s.matchId, result.completed.value)
          && (t.terminal.None? ==>
                && ButtonMoved(s.game, t.game) && t.game.handNumber == s.game.handNumber + 1
                && (c.quit ==> StackOf(t.game.stacks, c.action.accountId) == 0)))
  }

  lemma EndDealing(kit: PokerKit, s: Actor, c: MatchCommand, game: Match, applied: AppliedAction)
    requires Lawful(kit) && ActorInv(s) && s.game.hand.Some? && Aimed(s, c) && s.game.buttonIndex < |s.game.playerIds|
    requires Advanced(s.game, game, c) && game.hand.value.Complete()
    requires c.quit ==> SettleHand(game).Ok? && StackOf(SettleHand(game).value.0.stacks, c.action.accountId) == 0
    ensures var (t, r) := Conclude(kit, s, c, game, applied);
            r.Ok? && Dealing(s, t, c, r.value)
  {
    HandIds(s);
    hide ActorInv, MatchInv, FinishHand, Lawful, SettleHand, StartHand, PublicView, StackOf, WellShaped, LiveHand;
    hide Hand.Complete, TotalChips;
    var logged := Logged(s, game, PublicView(s.game.hand.value).street, applied);
    FinishShows(kit, logged, c, applied);
    FinishHandInv(kit, logged, c, applied);
  }

  lemma ConcludeDealing(kit: PokerKit, s: Actor, c: MatchCommand, game: Match, applied: AppliedAction)
    requires Lawful(kit) && ActorInv(s) && s.game.hand.Some? && Aimed(s, c) && s.game.buttonIndex < |s.game.playerIds|
    requires Advance(kit, s.game, c) == Ok((game, applied)) && Advanced(s.game, game, c)
    ensures var (t, r) := Conclude(kit, s, c, game, applied);
            r.Ok? && Dealing(s, t, c, r.value)
  {
    GameValid(s);
    hide ActorInv, MatchInv, FinishHand, Lawful, SettleHand, StackOf, WellShaped, LiveHand, PublicView, QuitHand, ActInHand;
    hide FailsWhenBusted, Hand.Complete;
    if c.quit {
      QuitterSettled(s.game, game, c.action.accountId);
    }
    if game.hand.value.Complete() {
      EndDealing(kit, s, c, game, applied);
    }
  }

  lemma ApplyDealing(kit: PokerKit, s: Actor, c: MatchCommand)
    requires Lawful(kit) && ActorInv(s) && Apply(kit, s, c).1.Ok? && s.game.buttonIndex < |s.game.playerIds|
    ensures var (t, r) := Apply(kit, s, c); Dealing(s, t, c, r.value)
  {
    hide Lawful, MatchInv, Conclude, Advance, Dealing, ActorInv, ValidateCurrent, AppliedOnce;
    ApplyAllOrNothing(kit, s, c);
    AppliedWasAimed(s, Apply(kit, s, c).0, c, Apply(kit, s, c).1.value);
    GameValid(s);
    AdvanceInv(kit, s.game, c);
    var (game, applied) := Advance(kit, s.game, c).value;
    ConcludeDealing(kit, s, c, game, applied);
  }

  lemma AppliedWasAimed(s: Actor, t: Actor, c: MatchCommand, result: CommandResult)
    requires AppliedOnce(s, t, c, result)
    ensures Aimed(s, c)
  {
    hide LogGrew, ChipsKept;
  }

  // ---------------------------------------------------------------------------------------------
  // Whole runs
  // ---------------------------------------------------------------------------------------------

  /** Between the two states one command was applied. */
  predicate AppliedBetween(w: World, v: World) {
    |v.applied| == |w.applied| + 1 && v.applied[..|w.applied|] == w.applied
  }

  function Newest(v: World): Applied
    requires v.applied != []
  {
    v.applied[|v.applied| - 1]
  }

  ghost predicate StepDealing(w: World, v: World)
    requires w.actor.game.buttonIndex < |w.actor.game.playerIds|
  {
    && v.actor.matchId == w.actor.matchId
    && (AppliedBetween(w, v) ==> Dealing(w.actor, v.actor, Newest(v).command, Newest(v).result))
    && (|v.applied| == |w.applied| ==> v.actor.game == w.actor.game && v.actor.terminal == w.actor.terminal)
    && (|v.applied| == |w.applied| || AppliedBetween(w, v))
  }

  lemma StepDeals(kit: PokerKit, w: World, e: Event)
    requires Lawful(kit) && WorldInv(w) && w.actor.game.buttonIndex < |w.actor.game.playerIds|
    ensures StepDealing(w, Step(kit, w, e))
  {
    hide Journal, QueueAgrees, Recorded, Versioned, Answered, Lawful, MatchInv, Apply, Dealing, ActorInv;
    if e.TakeNext? && w.actor.queue != [] && w.actor.delivering.None? {
      var s, c := w.actor.(queue := w.actor.queue[1..]), w.actor.queue[0].command;
      ActorFrame(w.actor, s);
      ApplyAllOrNothing(kit, s, c);
      var (t, r) := Apply(kit, s, c);
      if r.Ok? {
        ApplyDealing(kit, s, c);
        DealingFrame(s, t, w.actor, Step(kit, w, e).actor, c, r.value);
      }
    }
  }

  lemma DealingFrame(s: Actor, t: Actor, w: Actor, v: Actor, c: MatchCommand, result: CommandResult)
    requires s.game.buttonIndex < |s.game.playerIds| && Dealing(s, t, c, result)
    requires w.game == s.game && w.matchId == s.matchId && v.game == t.game && v.terminal == t.terminal
    ensures Dealing(w, v, c, result)
  {
    hide WellShaped, LiveHand, StackOf;
  }

  lemma RunDeals(kit: PokerKit, game: Match, states: seq<World>, events: seq<Event>, i: nat)
    requires MatchRun(kit, game, states, events) && i < |events|
    ensures |states| == |events| + 1 && WorldInv(states[i]) && Lawful(kit)
    ensures states[i].actor.game.buttonIndex < |states[i].actor.game.playerIds| && StepDealing(states[i], states[i + 1])
  {
    hide MatchRun, WorldInv, Step, Lawful, StepDealing;
    RunLength(kit, game, states, events);
    RunInv(kit, game, states, events, i);
    Invariants(states[i]);
    StepAt(kit, game, states, events, i);
    ButtonInRange(states[i].actor);
    StepDeals(kit, states[i], events[i]);
  }

  lemma ButtonInRange(s: Actor)
    requires ActorInv(s)
    ensures s.game.buttonIndex < |s.game.playerIds|
  {
    ButtonSeated(s.game);
    hide MatchInv;
  }

  /** While one hand lasts, its deal stays what it was. */
  lemma {:induction false} DealLasts(kit: PokerKit, game: Match, states: seq<World>, events: seq<Event>, i: nat, j: nat)
    requires MatchRun(kit, game, states, events) && i <= j < |states|
    requires states[j].actor.terminal.None? && states[i].actor.game.handNumber == states[j].actor.game.handNumber
    ensures SameDeal(states[i].actor.game, states[j].actor.game)
    decreases j
  {
    hide MatchRun, WorldInv, Lawful, FailsWhenBusted, TotalChips, StackOf;
    if i < j {
      RunLength(kit, game, states, events);
      RunDeals(kit, game, states, events, j - 1);
      LogsOnlyGrow(kit, game, states, events, i, j - 1);
      LogsOnlyGrow(kit, game, states, events, j - 1, j);
      RunContinues(kit, game, states, events, j - 1, j);
      DealLasts(kit, game, states, events, i, j - 1);
    }
  }

  /** The step ended a hand. */
  predicate EndsHand(w: World, v: World) {
    AppliedBetween(w, v) && Newest(v).result.completed.Some?
  }

  /** The hand that the step ended. */
  function Ended(w: World, v: World): CompletedHand
    requires EndsHand(w, v)
  {
    Newest(v).result.completed.value
  }

  /** A hand carries its number and the seat displayed; if the match goes on, both move by one. */
  lemma EndedFields(kit: PokerKit, game: Match, states: seq<World>, events: seq<Event>, j: nat)
    requires MatchRun(kit, game, states, events) && j < |events| && |states| == |events| + 1
    requires EndsHand(states[j], states[j + 1])
    ensures var m, n := states[j].actor.game, states[j + 1].actor.game;
            && m.buttonIndex < |m.playerIds|
            && Ended(states[j], states[j + 1]).handId == m.handNumber
            && Ended(states[j], states[j + 1]).buttonAccountId == Displayed(m)
            && (states[j + 1].actor.terminal.None? ==> n.handNumber == m.handNumber + 1 && ButtonMoved(m, n))
  {
    hide MatchRun, WorldInv, Lawful, WellShaped, LiveHand, StackOf;
    RunDeals(kit, game, states, events, j);
  }

  /**
   * A hand that follows another in a run can be taken live exactly when the player in the seat next to the
   * other hand's button came out of it with chips.
   */
  lemma NextHandFailsIff(kit: PokerKit, game: Match, states: seq<World>, events: seq<Event>, i: nat, j: nat)
    requires MatchRun(kit, game, states, events) && i < j < |events| && |states| == |events| + 1
    requires EndsHand(states[i], states[i + 1]) && EndsHand(states[j], states[j + 1])
    requires Ended(states[j], states[j + 1]).handId == Ended(states[i], states[i + 1]).handId + 1
    requires WellShaped(Ended(states[j], states[j + 1]))
    ensures states[i].actor.game.buttonIndex < |states[i].actor.game.playerIds|
    ensures LiveHand(states[i].actor.matchId, Ended(states[j], states[j + 1])).Err? <==>
            StackOf(states[i + 1].actor.game.stacks, NextDisplayed(states[i].actor.game)) == 0
  {
    hide MatchRun, WorldInv, Lawful, WellShaped, LiveHand, StackOf, TotalChips;
    RunDeals(kit, game, states, events, i);
    RunDeals(kit, game, states, events, j);
    RunContinues(kit, game, states, events, i, j);
    RunContinues(kit, game, states, events, i + 1, j);
    EndsWhilePlaying(kit, game, states, events, j);
    DealLasts(kit, game, states, events, i + 1, j);
  }

  /** Only a hand in play is ended. */
  lemma EndsWhilePlaying(kit: PokerKit, game: Match, states: seq<World>, events: seq<Event>, j: nat)
    requires MatchRun(kit, game, states, events) && j < |events| && |states| == |events| + 1
    requires |states[j + 1].applied| == |states[j].applied| + 1
    ensures states[j].actor.terminal.None?
  {
    hide MatchRun, WorldInv, Lawful, StackOf, TotalChips, Step;
    RunInv(kit, game, states, events, j);
    StepAt(kit, game, states, events, j);
    StepEffect(kit, states[j], events[j]);
  }

  /** So when the player in that seat quits and the match goes on, the next hand always fails, however it ends. */
  lemma QuitFailsNextHand(kit: PokerKit, game: Match, states: seq<World>, events: seq<Event>, i: nat, j: nat)
    requires MatchRun(kit, game, states, events) && i < j < |events| && |states| == |events| + 1
    requires EndsHand(states[i], states[i + 1]) && EndsHand(states[j], states[j + 1])
    requires Ended(states[j], states[j + 1]).handId == Ended(states[i], states[i + 1]).handId + 1
    requires WellShaped(Ended(states[j], states[j + 1]))
    requires states[i].actor.game.playerIds != [] && Newest(states[i + 1]).command.quit
    requires Newest(states[i + 1]).command.action.accountId == NextDisplayed(states[i].actor.game)
    ensures LiveHand(states[i].actor.matchId, Ended(states[j], states[j + 1])) == Err(ButtonNotSeated)
  {
    hide MatchRun, WorldInv, Lawful, WellShaped, StackOf, TotalChips;
    NextHandFailsIff(kit, game, states, events, i, j);
    RunDeals(kit, game, states, events, i);
    RunContinues(kit, game, states, events, i + 1, j);
    EndsWhilePlaying(kit, game, states, events, j);
  }
}
