/** Applying one command: all or nothing, one version, one log entry, and no chip unaccounted for. */
module ActorApply {
  import opened Prelude
  import opened Blinds
  import opened PokerHand
  import opened MatchState
  import opened ActorState

  /** A started actor: either a hand is in progress under the current ids, or the match is frozen. */
  ghost predicate ActorInv(s: Actor) {
    && MatchInv(s.game)
    && s.handId == Some(s.game.handNumber)
    && (s.game.hand.Some? <==> s.terminal.None?)
    && (s.game.status.Active? <==> s.terminal.None?)
    && (s.game.hand.Some? ==> s.game.hand.value.quit.None? && s.handStartingStacks == s.game.hand.value.startingStacks)
    && (s.terminal.Some? ==> s.terminal.value.public.actor.None?)
    && TimersCurrent(s)
  }

  ghost predicate TimersCurrent(s: Actor) {
    var now := Timer(s.game.handNumber, s.stateVersion);
    && (s.actionTimer.Some? ==> s.actionTimer == Some(now))
    && (s.actionTimer.Some? <==>
          s.decisionTimeout.Some? && s.terminal.None? && Stamped(s.game, s.stateVersion).actor.Some?)
    && (s.disconnectTimer.Some? ==>
          && s.decisionTimeout.None? && s.disconnectTimer.value.timer == now && s.terminal.None?
          && Stamped(s.game, s.stateVersion).actor == Some(s.disconnectTimer.value.accountId))
  }

  /** The protocol bookkeeping, which applying a command never touches. */
  predicate SameProtocol(s: Actor, t: Actor) {
    && t.queue == s.queue && t.inflight == s.inflight && t.processed == s.processed
    && t.futures == s.futures && t.delivering == s.delivering
    && t.matchId == s.matchId && t.decisionTimeout == s.decisionTimeout
  }

  lemma StartInv(kit: PokerKit, matchId: MatchId, game: Match, timeout: Option<int>)
    requires Lawful(kit) && MatchInv(game) && game.hand.None? && game.status.Active?
    ensures var (s, error) := Start(kit, NewActor(matchId, game, timeout));
            && error.None? && ActorInv(s) && s.stateVersion == 0 && s.handActions == []
            && SameProtocol(NewActor(matchId, game, timeout), s)
            && TotalChips(s.game) == TotalChips(game) && s.game.stacks == game.stacks
  {
    StartHandSucceeds(kit, game);
  }

  // ---------------------------------------------------------------------------------------------
  // The two halves of an apply
  // ---------------------------------------------------------------------------------------------

  /** What the engine may have changed when it accepted a command. */
  ghost predicate Advanced(m: Match, next: Match, c: MatchCommand) {
    && MatchInv(next) && next.hand.Some? && m.hand.Some?
    && next == m.(hand := next.hand)
    && (next.hand.value.quit.Some? <==> c.quit)
    && (c.quit ==> next.hand.value.table == m.hand.value.table)
    && m.hand.value.table.active
  }

  lemma AdvanceInv(kit: PokerKit, m: Match, c: MatchCommand)
    requires Lawful(kit) && MatchInv(m) && m.hand.Some? && m.hand.value.quit.None?
    ensures var r := Advance(kit, m, c);
            r.Ok? ==> Advanced(m, r.value.0, c)
  {
    if c.quit {
      QuitHandInv(m, c.action.accountId);
    } else {
      ActInHandInv(kit, m, c.action);
      ApplyActionValid(kit, m.hand.value, c.action);
    }
  }

  /** Chips a command can take out of the match: only a quit does, and exactly what was already collected. */
  function CommandLoss(s: Actor, c: MatchCommand): int {
    if c.quit && s.game.hand.Some? then s.game.hand.value.table.collected else 0
  }

  /** What finishing a hand does, from the state whose log already holds the last action. */
  ghost predicate Finished(s: Actor, t: Actor, c: MatchCommand, applied: AppliedAction, result: CommandResult) {
    && s.game.hand.Some? && SameProtocol(s, t)
    && t.stateVersion == s.stateVersion == result.stateVersion
    && result.commandId == c.commandId && result.applied == applied && result.quitAccount == QuitAccount(c)
    && result.completed.Some?
    && result.completed.value.actions == s.handActions
    && result.completed.value.handId == s.game.handNumber
    && t.handActions == (if t.terminal.Some? then s.handActions else [])
    && (t.terminal.Some? ==> t.handId == s.handId)
    && t.game.rules == s.game.rules && t.game.playerIds == s.game.playerIds
    && t.game.handNumber == s.game.handNumber + (if t.terminal.Some? then 0 else 1)
    && TotalChips(t.game) == TotalChips(s.game) - LostChips(s.game.hand.value)
    && (forall account :: StackOf(s.game.stacks, account) <= 0 ==> StackOf(t.game.stacks, account) == 0)
  }

  lemma BlindsSet(m: Match)
    requires MatchInv(m) && m.hand.Some?
    ensures m.handBlinds.Some?
  {
  }

  /** Opening the next hand establishes the invariant afresh, timer included. */
  lemma OpenHandInv(s: Actor, game: Match)
    requires MatchInv(game) && game.status.Active? && game.hand.Some? && game.hand.value.quit.None? && s.terminal.None?
    ensures ActorInv(OpenHand(s, game))
  {
    hide MatchInv, PublicView;
  }

  lemma FinishByDealing(kit: PokerKit, s: Actor, c: MatchCommand, applied: AppliedAction, game: Match, dealt: Match,
                        settlement: Settlement)
    requires s.game.hand.Some? && s.game.handBlinds.Some?
    requires s.handId == Some(s.game.handNumber) && s.terminal.None?
    requires SettleHand(s.game) == Ok((game, settlement)) && HandSettled(s.game, game) && game.status.Active?
    requires StartHand(kit, game) == (dealt, None) && MatchInv(dealt) && NextDealt(game, dealt)
    ensures var (t, r) := FinishHand(kit, s, c, applied);
            r.Ok? && ActorInv(t) && Finished(s, t, c, applied, r.value)
  {
    hide MatchInv, ActorInv, SettleHand, StartHand, TotalChips, StackOf, PublicView, LostChips, Stamped;
    OpenHandInv(s, dealt);
    SameTotals(game, dealt);
  }

  lemma FinishByFreezing(kit: PokerKit, s: Actor, c: MatchCommand, applied: AppliedAction, game: Match,
                         settlement: Settlement)
    requires s.game.hand.Some? && s.game.handBlinds.Some?
    requires s.handId == Some(s.game.handNumber) && s.terminal.None?
    requires SettleHand(s.game) == Ok((game, settlement)) && HandSettled(s.game, game) && MatchInv(game)
    requires game.status.Complete?
    ensures var (t, r) := FinishHand(kit, s, c, applied);
            r.Ok? && ActorInv(t) && Finished(s, t, c, applied, r.value)
  {
    hide MatchInv, SettleHand, StartHand, TotalChips, StackOf, PublicView, LostChips;
  }

  /** Finishing a hand after the log entry never fails. */
  lemma FinishHandInv(kit: PokerKit, s: Actor, c: MatchCommand, applied: AppliedAction)
    requires Lawful(kit) && MatchInv(s.game) && s.game.hand.Some? && s.game.hand.value.Complete()
    requires s.handId == Some(s.game.handNumber) && s.terminal.None?
    ensures var (t, r) := FinishHand(kit, s, c, applied);
            r.Ok? && ActorInv(t) && Finished(s, t, c, applied, r.value)
  {
    SettleHandInv(s.game);
    BlindsSet(s.game);
    hide MatchInv, SettleHand, StartHand, Lawful, Hand.Complete, HandSettled, NextDealt, FinishHand, ActorInv, Finished;
    var (game, settlement) := SettleHand(s.game).value;
    if game.status.Active? {
      Unhanded(s.game, game);
      StartHandSucceeds(kit, game);
      FinishByDealing(kit, s, c, applied, game, StartHand(kit, game).0, settlement);
    } else {
      FinishByFreezing(kit, s, c, applied, game, settlement);
    }
  }

  /** The completed hand is the hand as it was logged, with its own settlement. */
  lemma FinishCompletes(kit: PokerKit, s: Actor, c: MatchCommand, applied: AppliedAction)
    requires FinishHand(kit, s, c, applied).1.Ok?
    ensures s.game.hand.Some? && Settle(s.game.hand.value).Ok? && s.game.handBlinds.Some? && s.handId.Some?
    ensures FinishHand(kit, s, c, applied).1.value.completed ==
            Some(CompletedFrom(s, Settle(s.game.hand.value).value))
  {
    hide StartHand, Stamped, MatchIsComplete, Deposit, Settle;
  }

  lemma Unhanded(m: Match, after: Match)
    requires m.hand.Some? && HandSettled(m, after)
    ensures after.hand.None?
  {
  }

  // ---------------------------------------------------------------------------------------------
  // The whole apply
  // ---------------------------------------------------------------------------------------------

  /** The command was aimed at this state: whatever identity it carried was the current one. */
  predicate Aimed(s: Actor, c: MatchCommand) {
    && (c.matchId.Some? ==> c.matchId.value == s.matchId)
    && (c.handId.Some? ==> c.handId == s.handId)
    && (c.stateVersion.Some? ==> c.stateVersion.value == s.stateVersion)
    && s.game.hand.Some? && s.terminal.None?
  }

  /** The hand's log is the old one plus one entry; it stays in place or leaves with the completed hand. */
  ghost predicate LogGrew(s: Actor, t: Actor, street: Street, result: CommandResult) {
    var entry := HandAction(|s.handActions| + 1, s.stateVersion + 1, result.applied.accountId, street,
                            result.applied.action, result.applied.amount);
    var log := s.handActions + [entry];
    && (result.completed.None? ==> t.terminal.None? && t.handActions == log && t.handId == s.handId)
    && (result.completed.Some? ==>
          && result.completed.value.actions == log && Some(result.completed.value.handId) == s.handId
          && (t.terminal.Some? ==> t.handActions == log && t.handId == s.handId)
          && (t.terminal.None? ==> t.handActions == [] && t.game.handNumber == s.game.handNumber + 1))
  }

  /** The street a hand is on, as everybody sees it. */
  function StreetOnShow(m: Match): Street {
    match m.hand
    case None => Settled
    case Some(h) =>
      if h.quit.Some? || (h.table.showdown.None? && !h.table.active) then Settled
      else if h.table.showdown.Some? then Showdown
      else h.table.street
  }

  lemma StreetShown(m: Match)
    requires m.hand.Some?
    ensures PublicView(m.hand.value).street == StreetOnShow(m)
  {
  }

  ghost predicate ChipsKept(s: Actor, t: Actor, c: MatchCommand) {
    && t.game.rules == s.game.rules && t.game.playerIds == s.game.playerIds
    && TotalChips(t.game) == TotalChips(s.game) - CommandLoss(s, c)
    && (forall account :: StackOf(s.game.stacks, account) <= 0 ==> StackOf(t.game.stacks, account) == 0)
  }

  /** Everything one accepted command does, seen from outside. */
  ghost predicate AppliedOnce(s: Actor, t: Actor, c: MatchCommand, result: CommandResult) {
    && Aimed(s, c)
    && t.stateVersion == s.stateVersion + 1 == result.stateVersion
    && result.commandId == c.commandId
    && (c.quit ==> result.completed.Some?) && result.quitAccount == QuitAccount(c)
    && LogGrew(s, t, StreetOnShow(s.game), result)
    && ChipsKept(s, t, c)
  }

  lemma ContinueInv(kit: PokerKit, s: Actor, c: MatchCommand, game: Match, applied: AppliedAction)
    requires ActorInv(s) && Advanced(s.game, game, c) && Aimed(s, c) && !game.hand.value.Complete()
    ensures var (t, r) := Conclude(kit, s, c, game, applied);
            ActorInv(t) && SameProtocol(s, t) && r.Ok? && AppliedOnce(s, t, c, r.value)
  {
    var (t, r) := Conclude(kit, s, c, game, applied);
    assert TotalChips(game) == TotalChips(s.game);
    StreetShown(s.game);
    assert LogGrew(s, t, StreetOnShow(s.game), r.value);
    assert forall account :: StackOf(s.game.stacks, account) <= 0 ==> StackOf(s.game.stacks, account) == 0;
  }

  lemma HandIds(s: Actor)
    requires ActorInv(s)
    ensures s.handId == Some(s.game.handNumber)
    ensures s.game.hand.Some? ==> s.game.hand.value.quit.None?
  {
  }

  lemma FinishedIsAppliedOnce(s: Actor, t: Actor, c: MatchCommand, game: Match, street: Street, applied: AppliedAction,
                              result: CommandResult)
    requires Aimed(s, c) && s.handId == Some(s.game.handNumber) && s.game.hand.value.quit.None?
    requires game == s.game.(hand := game.hand) && game.hand.Some?
    requires game.hand.value.quit.Some? <==> c.quit
    requires c.quit ==> game.hand.value.table == s.game.hand.value.table
    requires Finished(Logged(s, game, street, applied), t, c, applied, result) && street == StreetOnShow(s.game)
    ensures SameProtocol(s, t) && AppliedOnce(s, t, c, result)
  {
    SameTotals(s.game, game);
    hide TotalChips, StackOf;
    assert LogGrew(s, t, street, result);
  }

  lemma EndHandInv(kit: PokerKit, s: Actor, c: MatchCommand, game: Match, applied: AppliedAction)
    requires Lawful(kit) && ActorInv(s) && Advanced(s.game, game, c) && Aimed(s, c) && game.hand.value.Complete()
    ensures var (t, r) := Conclude(kit, s, c, game, applied);
            ActorInv(t) && SameProtocol(s, t) && r.Ok? && AppliedOnce(s, t, c, r.value)
  {
    HandIds(s);
    hide ActorInv, FinishHand, MatchInv, PublicView, Lawful, Finished, AppliedOnce, SameProtocol;
    var street := PublicView(s.game.hand.value).street;
    var logged := Logged(s, game, street, applied);
    StreetShown(s.game);
    FinishHandInv(kit, logged, c, applied);
    var (t, r) := FinishHand(kit, logged, c, applied);
    FinishedIsAppliedOnce(s, t, c, game, street, applied, r.value);
  }

  /**
   * All or nothing: a refused command leaves the actor exactly as it was, an accepted one moves it by exactly
   * one version and one log entry. In particular nothing after the engine's own step can fail.
   */
  lemma ApplyAllOrNothing(kit: PokerKit, s: Actor, c: MatchCommand)
    requires Lawful(kit) && ActorInv(s)
    ensures var (t, r) := Apply(kit, s, c);
            && ActorInv(t) && SameProtocol(s, t)
            && (r.Err? ==> t == s)
            && (r.Ok? ==> AppliedOnce(s, t, c, r.value))
  {
    if ValidateCurrent(s, c).None? && s.game.hand.Some? {
      AdvanceInv(kit, s.game, c);
      var advanced := Advance(kit, s.game, c);
      if advanced.Ok? {
        var (game, applied) := advanced.value;
        if game.hand.value.Complete() {
          EndHandInv(kit, s, c, game, applied);
        } else {
          ContinueInv(kit, s, c, game, applied);
        }
      }
    }
  }

  /** Once the match is complete every further command is refused and nothing moves. */
  lemma CompleteRefuses(kit: PokerKit, s: Actor, c: MatchCommand)
    requires s.game.hand.None?
    ensures var (t, r) := Apply(kit, s, c);
            t == s && r.Err?
  {
  }
}
