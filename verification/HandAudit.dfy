/** Hands the engine finishes can be turned into statistics: their logs only name players of the hand. */
module HandAudit {
  import opened Prelude
  import opened PokerHand
  import opened MatchState
  import opened ActorState
  import opened ActorApply
  import opened ActorRuns
  import opened HandRecords
  import StatisticsReducer

  predicate LogSeated(log: seq<HandAction>, ids: seq<AccountId>) {
    forall i :: 0 <= i < |log| ==> log[i].accountId in ids
  }

  /** Every action of a completed hand was taken by one of its players, who are all different. */
  predicate CleanHand(c: CompletedHand) {
    Distinct(c.public.accountIds) && LogSeated(c.actions, c.public.accountIds)
  }

  ghost predicate Audited(w: World) {
    && (w.actor.game.hand.Some? ==> LogSeated(w.actor.handActions, w.actor.game.hand.value.accountIds))
    && forall i :: 0 <= i < |w.applied| && w.applied[i].result.completed.Some? ==>
         CleanHand(w.applied[i].result.completed.value)
  }

  /** The engine only lets players of the hand act or quit, and never changes who they are. */
  lemma AdvanceSeats(kit: PokerKit, m: Match, c: MatchCommand)
    requires Lawful(kit) && MatchInv(m) && m.hand.Some? && m.hand.value.quit.None? && Advance(kit, m, c).Ok?
    ensures var (game, applied) := Advance(kit, m, c).value;
            && game.hand.Some? && game.hand.value.accountIds == m.hand.value.accountIds
            && applied.accountId in m.hand.value.accountIds && Distinct(m.hand.value.accountIds)
  {
    AdvanceInv(kit, m, c);
    if !c.quit {
      ApplyActionValid(kit, m.hand.value, c.action);
    }
  }

  /** Seen from outside, what one accepted command leaves behind. */
  ghost predicate Clean(t: Actor, result: CommandResult) {
    && (t.game.hand.Some? ==> LogSeated(t.handActions, t.game.hand.value.accountIds))
    && (result.completed.Some? ==> CleanHand(result.completed.value))
  }

  lemma FinishAudited(kit: PokerKit, s: Actor, c: MatchCommand, applied: AppliedAction)
    requires s.game.hand.Some? && Distinct(s.game.hand.value.accountIds)
    requires LogSeated(s.handActions, s.game.hand.value.accountIds)
    requires FinishHand(kit, s, c, applied).1.Ok?
    ensures var (t, r) := FinishHand(kit, s, c, applied); Clean(t, r.value)
  {
    hide StartHand, Settle, Deposit, MatchIsComplete, LogSeated, Distinct, ScheduleActionTimer;
    var settled := SettleHand(s.game);
    assert settled.Ok? && settled.value.0.hand.None?;
    hide SettleHand;
    var completed := CompletedFrom(s, settled.value.1);
    assert completed.public.accountIds == s.game.hand.value.accountIds;
    assert CleanHand(completed);
    NothingLogged();
    OpenedLog(s, StartHand(kit, settled.value.0).0);
  }

  lemma NothingLogged()
    ensures forall ids :: LogSeated([], ids)
  {
  }

  lemma OpenedLog(s: Actor, game: Match)
    ensures game.hand.Some? ==> OpenHand(s, game).handActions == []
  {
  }

  lemma ConcludeAudited(kit: PokerKit, s: Actor, c: MatchCommand, game: Match, applied: AppliedAction)
    requires s.game.hand.Some? && game.hand.Some? && Distinct(game.hand.value.accountIds)
    requires LogSeated(s.handActions, game.hand.value.accountIds) && applied.accountId in game.hand.value.accountIds
    requires Conclude(kit, s, c, game, applied).1.Ok?
    ensures var (t, r) := Conclude(kit, s, c, game, applied); Clean(t, r.value)
  {
    hide FinishHand, Hand.Complete, PublicView;
    var logged := Logged(s, game, PublicView(s.game.hand.value).street, applied);
    assert LogSeated(logged.handActions, game.hand.value.accountIds);
    if game.hand.value.Complete() {
      FinishAudited(kit, logged, c, applied);
    }
  }

  lemma ApplyAudited(kit: PokerKit, s: Actor, c: MatchCommand)
    requires Lawful(kit) && ActorInv(s) && Apply(kit, s, c).1.Ok?
    requires s.game.hand.Some? ==> LogSeated(s.handActions, s.game.hand.value.accountIds)
    ensures var (t, r) := Apply(kit, s, c); Clean(t, r.value)
  {
    hide Lawful, MatchInv, Conclude, Advance, Clean;
    AdvanceSeats(kit, s.game, c);
    var (game, applied) := Advance(kit, s.game, c).value;
    ConcludeAudited(kit, s, c, game, applied);
  }

  lemma StepAudited(kit: PokerKit, w: World, e: Event)
    requires Lawful(kit) && WorldInv(w) && Audited(w)
    ensures Audited(Step(kit, w, e))
  {
    hide Journal, QueueAgrees, Recorded, Versioned, Answered, Lawful, MatchInv, Apply, LogSeated, CleanHand;
    if e.TakeNext? && w.actor.queue != [] && w.actor.delivering.None? {
      var s, c := w.actor.(queue := w.actor.queue[1..]), w.actor.queue[0].command;
      ActorFrame(w.actor, s);
      if Apply(kit, s, c).1.Ok? {
        ApplyAudited(kit, s, c);
      } else {
        ApplyAllOrNothing(kit, s, c);
      }
    }
  }

  lemma {:induction false} RunAudited(kit: PokerKit, game: Match, states: seq<World>, events: seq<Event>, i: nat)
    requires MatchRun(kit, game, states, events) && i < |states|
    ensures Audited(states[i])
  {
    hide WorldInv, Lawful, Step, MatchRun, Audited;
    if i == 0 {
      OpeningAudited(kit, game, states, events);
    } else {
      RunLength(kit, game, states, events);
      RunAudited(kit, game, states, events, i - 1);
      RunInv(kit, game, states, events, i - 1);
      StepAt(kit, game, states, events, i - 1);
      StepAudited(kit, states[i - 1], events[i - 1]);
    }
  }

  lemma OpeningAudited(kit: PokerKit, game: Match, states: seq<World>, events: seq<Event>)
    requires MatchRun(kit, game, states, events)
    ensures |states| > 0 && Audited(states[0])
  {
    assert Reached(kit, game, states, events, 0);
    var matchId, timeout := states[0].actor.matchId, states[0].actor.decisionTimeout;
    hide Step, Lawful, MatchInv, MatchRun;
    StartInv(kit, matchId, game, timeout);
  }

  /** A clean hand whose button was dealt in reduces without error, directly and through storage. */
  lemma CleanHandReduces(matchId: nat, c: CompletedHand)
    requires CleanHand(c) && WellShaped(c) && LiveHand(matchId, c).Ok?
    ensures StatisticsReducer.ReducedHand(LiveHand(matchId, c).value).Ok?
  {
    hide PlayerIndex, Sum, PotAmounts, Max;
    var hand := LiveHand(matchId, c).value;
    forall i | 0 <= i < |hand.actions| ensures StatisticsReducer.Among(hand.players, hand.actions[i].accountId) {
      var j :| 0 <= j < |c.public.accountIds| && c.public.accountIds[j] == c.actions[i].accountId;
      assert hand.players[j].accountId == hand.actions[i].accountId;
    }
  }

  /**
   * In every run, a hand completed by an applied command feeds the statistics unless the button on display
   * was not dealt in: nothing else about it can be refused.
   */
  lemma CompletedHandsReduce(kit: PokerKit, game: Match, states: seq<World>, events: seq<Event>, i: nat, k: nat)
    requires MatchRun(kit, game, states, events) && i < |states| && k < |states[i].applied|
    requires states[i].applied[k].result.completed.Some? && WellShaped(states[i].applied[k].result.completed.value)
    ensures var c := states[i].applied[k].result.completed.value;
            var matchId := states[i].actor.matchId;
            if c.buttonAccountId in c.public.accountIds
            then LiveHand(matchId, c).Ok? && StatisticsReducer.ReducedHand(LiveHand(matchId, c).value).Ok?
            else LiveHand(matchId, c) == Err(ButtonNotSeated)
  {
    RunAudited(kit, game, states, events, i);
    hide MatchRun, StatisticsReducer.ReducedHand, PotAmounts, Sum;
    var c := states[i].applied[k].result.completed.value;
    if c.buttonAccountId in c.public.accountIds {
      CleanHandReduces(states[i].actor.matchId, c);
    }
  }
}
