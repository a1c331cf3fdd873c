/** When a timer is armed: the action timer by the state alone, the offline timer by what happened. */
module Timers {
  import opened Prelude
  import opened PokerHand
  import opened MatchState
  import opened ActorState
  import opened ActorApply
  import opened ActorRuns
  import opened ActorTheorems

  /** The player everybody is waiting for, on a betting street or at showdown. */
  function TurnOf(m: Match): Option<AccountId> {
    if m.hand.None? || m.hand.value.quit.Some? then None
    else
      var h := m.hand.value;
      var seat := if h.table.actor.Some? then h.table.actor else h.table.showdown;
      if seat.Some? && seat.value < |h.accountIds| then Some(h.accountIds[seat.value]) else None
  }

  lemma TurnShown(m: Match, version: nat)
    ensures Stamped(m, version).actor == TurnOf(m)
  {
  }

  /** Under a decision timeout somebody to act always has a timer, of this hand and version; otherwise there is none. */
  lemma ActionTimerIs(kit: PokerKit, game: Match, states: seq<World>, events: seq<Event>, i: nat)
    requires MatchRun(kit, game, states, events) && i < |states|
    ensures var s := states[i].actor;
            s.actionTimer ==
            if s.decisionTimeout.Some? && TurnOf(s.game).Some? then Some(Timer(s.game.handNumber, s.stateVersion)) else None
  {
    RunInv(kit, game, states, events, i);
    Invariants(states[i]);
    TurnShown(states[i].actor.game, states[i].actor.stateVersion);
    hide MatchRun, WorldInv, Lawful, MatchInv, Stamped;
    NobodyAfterwards(states[i].actor);
  }

  lemma NobodyAfterwards(s: Actor)
    requires ActorInv(s)
    ensures s.terminal.Some? ==> TurnOf(s.game).None?
  {
  }

  // ---------------------------------------------------------------------------------------------
  // The offline timer
  // ---------------------------------------------------------------------------------------------

  predicate ArmedFor(w: World, a: AccountId) {
    w.actor.disconnectTimer.Some? && w.actor.disconnectTimer.value.accountId == a
  }

  /** The player to act goes offline in a match without a decision timeout. */
  predicate Arms(w: World, e: Event, a: AccountId) {
    e == ScheduleOffline(a) && w.actor.decisionTimeout.None? && TurnOf(w.actor.game) == Some(a)
  }

  /** The player is back, or a command was applied. */
  predicate Disarms(w: World, v: World, e: Event, a: AccountId) {
    e == CancelOffline(a) || |v.applied| != |w.applied|
  }

  lemma ScheduleArms(s: Actor, a: AccountId)
    requires ActorInv(s)
    ensures var t := ScheduleDisconnect(s, a).0;
            t == s.(disconnectTimer := if s.decisionTimeout.None? && TurnOf(s.game) == Some(a)
                                       then Some(DisconnectTimer(a, Timer(s.game.handNumber, s.stateVersion)))
                                       else s.disconnectTimer)
  {
    TurnShown(s.game, s.stateVersion);
    NobodyAfterwards(s);
    hide Stamped, TurnOf, MatchInv;
  }

  lemma ArmedIsTurn(s: Actor)
    requires ActorInv(s) && s.disconnectTimer.Some?
    ensures TurnOf(s.game) == Some(s.disconnectTimer.value.accountId)
  {
    TurnShown(s.game, s.stateVersion);
    hide Stamped, TurnOf, MatchInv;
  }

  lemma FinishDisarms(kit: PokerKit, s: Actor, c: MatchCommand, applied: AppliedAction)
    requires FinishHand(kit, s, c, applied).1.Ok?
    ensures FinishHand(kit, s, c, applied).0.disconnectTimer.None?
  {
    hide StartHand, SettleHand, Stamped;
  }

  lemma ApplyDisarms(kit: PokerKit, s: Actor, c: MatchCommand)
    requires Apply(kit, s, c).1.Ok?
    ensures Apply(kit, s, c).0.disconnectTimer.None?
  {
    hide Advance, FinishHand, Stamped, PublicView, ValidateCurrent;
    var (game, applied) := Advance(kit, s.game, c).value;
    var logged := Logged(s, game, PublicView(s.game.hand.value).street, applied);
    if game.hand.Some? && game.hand.value.Complete() {
      FinishDisarms(kit, logged, c, applied);
    }
  }

  lemma TakeArmed(kit: PokerKit, w: World)
    requires Lawful(kit) && ActorInv(w.actor) && w.actor.queue != [] && w.actor.delivering.None?
    ensures var v := TakeStep(kit, w);
            if |v.applied| != |w.applied| then v.actor.disconnectTimer.None?
            else v.actor.disconnectTimer == w.actor.disconnectTimer
  {
    hide ActorInv, Lawful, Apply;
    var s, c := w.actor.(queue := w.actor.queue[1..]), w.actor.queue[0].command;
    ActorFrame(w.actor, s);
    ApplyAllOrNothing(kit, s, c);
    if Apply(kit, s, c).1.Ok? {
      ApplyDisarms(kit, s, c);
    }
  }

  /** Nothing else touches it. */
  lemma OthersKeepTimer(kit: PokerKit, w: World, e: Event)
    requires !e.TakeNext? && !e.ScheduleOffline?
    ensures var v := Step(kit, w, e);
            && v.applied == w.applied
            && v.actor.disconnectTimer ==
               if e.CancelOffline? && ArmedFor(w, e.account) then None else w.actor.disconnectTimer
  {
    hide TimeoutCommand;
  }

  lemma StepTimer(kit: PokerKit, w: World, e: Event)
    requires Lawful(kit) && ActorInv(w.actor)
    ensures var v := Step(kit, w, e);
            if |v.applied| != |w.applied| then v.actor.disconnectTimer.None?
            else if e.ScheduleOffline? && Arms(w, e, e.account) then ArmedFor(v, e.account)
            else if e.CancelOffline? && ArmedFor(w, e.account) then v.actor.disconnectTimer.None?
            else v.actor.disconnectTimer == w.actor.disconnectTimer
    ensures !e.TakeNext? ==> |Step(kit, w, e).applied| == |w.applied|
  {
    hide ActorInv, Lawful, TakeStep, TurnOf;
    if e.TakeNext? {
      if w.actor.queue != [] && w.actor.delivering.None? {
        TakeArmed(kit, w);
      }
    } else if e.ScheduleOffline? {
      ScheduleArms(w.actor, e.account);
      hide ScheduleDisconnect;
    } else {
      OthersKeepTimer(kit, w, e);
      hide Step;
    }
  }

  lemma StepArmed(kit: PokerKit, w: World, e: Event, a: AccountId)
    requires Lawful(kit) && WorldInv(w)
    ensures var v := Step(kit, w, e);
            ArmedFor(v, a) <==> Arms(w, e, a) || (ArmedFor(w, a) && !Disarms(w, v, e, a))
  {
    hide WorldInv, ActorInv, Lawful, Step, TurnOf;
    Invariants(w);
    StepTimer(kit, w, e);
    if w.actor.disconnectTimer.Some? {
      ArmedIsTurn(w.actor);
    }
  }

  /**
   * An offline player has a timer running exactly when it went offline on its own turn, in a match without a
   * decision timeout, and has not come back since while no command was applied.
   */
  lemma {:induction false} OfflineTimerIff(kit: PokerKit, game: Match, states: seq<World>, events: seq<Event>, j: nat,
                                           a: AccountId)
    requires MatchRun(kit, game, states, events) && j < |states| && |states| == |events| + 1
    ensures ArmedFor(states[j], a) <==>
            exists i :: 0 <= i < j && Arms(states[i], events[i], a)
                        && forall k :: i < k < j ==> !Disarms(states[k], states[k + 1], events[k], a)
  {
    hide MatchRun, WorldInv, Lawful, Step, ArmedFor, Arms, Disarms;
    if j == 0 {
      Opened(kit, game, states, events);
      NotArmed(kit, states[0].actor.matchId, game, states[0].actor.decisionTimeout, a);
    } else {
      OfflineTimerIff(kit, game, states, events, j - 1, a);
      RunInv(kit, game, states, events, j - 1);
      StepAt(kit, game, states, events, j - 1);
      assert states[j - 1 + 1] == states[j];
      StepArmed(kit, states[j - 1], events[j - 1], a);
    }
  }

  lemma NotArmed(kit: PokerKit, matchId: MatchId, game: Match, timeout: Option<int>, a: AccountId)
    ensures !ArmedFor(Opening(kit, matchId, game, timeout), a)
  {
    hide StartHand, Stamped;
  }
}
