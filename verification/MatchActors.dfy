/** The actor object: its fields change exactly as the protocol on values says. */
module MatchActors {
  import opened Prelude
  import opened Blinds
  import opened PokerHand
  import opened MatchState
  import opened Coordination
  import opened ActorState

  class MatchActor {
    const coordinator: MatchCoordinator
    const matchId: MatchId
    const decisionTimeout: Option<int>
    var handId: Option<HandId>
    var handStartingStacks: seq<int>
    var handActions: seq<HandAction>
    var terminal: Option<ActorSnapshot>
    var queue: seq<Queued>
    var inflight: map<CommandId, Queued>
    var processed: map<CommandId, Processed>
    var futures: seq<FutureState>
    var delivering: Option<Delivery>
    var stateVersion: nat
    var actionTimer: Option<Timer>
    var disconnectTimer: Option<DisconnectTimer>

    constructor (coordinator: MatchCoordinator, matchId: MatchId, decisionTimeout: Option<int>)
      requires coordinator.Linked()
      ensures Linked() && this.coordinator == coordinator
      ensures State() == NewActor(matchId, coordinator.State(), decisionTimeout)
    {
      this.coordinator := coordinator;
      this.matchId := matchId;
      this.decisionTimeout := decisionTimeout;
      handId, handStartingStacks, handActions, terminal := None, [], [], None;
      queue, inflight, processed, futures, delivering := [], map[], map[], [], None;
      stateVersion, actionTimer, disconnectTimer := 0, None, None;
    }

    function State(): Actor
      reads this, coordinator, coordinator.hand
    {
      Actor(matchId, coordinator.State(), decisionTimeout, handId, handStartingStacks, handActions, terminal,
            queue, inflight, processed, futures, delivering, stateVersion, actionTimer, disconnectTimer)
    }

    ghost predicate Linked()
      reads this, coordinator, coordinator.hand
    {
      coordinator.Linked()
    }

    // -------------------------------------------------------------------------------------------
    // Timers
    // -------------------------------------------------------------------------------------------

    method ScheduleActionTimer()
      modifies this`actionTimer, this`disconnectTimer
      ensures State() == ActorState.ScheduleActionTimer(old(State()))
    {
      actionTimer := None;
      disconnectTimer := None;
      var snapshot := Stamped(coordinator.State(), stateVersion);
      if decisionTimeout.Some? && handId.Some? && snapshot.actor.Some? {
        actionTimer := Some(Timer(handId.value, stateVersion));
      }
    }

    method ScheduleDisconnectTimeout(account: AccountId) returns (r: Result<bool, ActorError>)
      modifies this`disconnectTimer
      ensures (State(), r) == ScheduleDisconnect(old(State()), account)
    {
      if decisionTimeout.Some? {
        return Ok(false);
      }
      var snapshot := CurrentSnapshot(State());
      if snapshot.Err? {
        return Err(snapshot.error);
      }
      if snapshot.value.public.actor != Some(account) {
        return Ok(false);
      }
      disconnectTimer :=
        Some(DisconnectTimer(account, Timer(snapshot.value.handId, snapshot.value.public.stateVersion)));
      r := Ok(true);
    }

    method CancelDisconnectTimeout(account: AccountId)
      modifies this`disconnectTimer
      ensures State() == CancelDisconnect(old(State()), account)
    {
      if disconnectTimer.Some? && disconnectTimer.value.accountId == account {
        disconnectTimer := None;
      }
    }

    // -------------------------------------------------------------------------------------------
    // Starting and submitting
    // -------------------------------------------------------------------------------------------

    method OpenHand()
      requires coordinator.hand != null
      modifies this`handId, this`handStartingStacks, this`handActions, this`actionTimer, this`disconnectTimer
      ensures State() == ActorState.OpenHand(old(State()), old(coordinator.State()))
    {
      handId := Some(coordinator.handNumber);
      handStartingStacks := coordinator.hand.startingStacks;
      handActions := [];
      ScheduleActionTimer();
    }

    method Start() returns (error: Option<ActorError>)
      requires Linked()
      modifies this, coordinator
      ensures Linked()
      ensures (State(), error) == ActorState.Start(coordinator.kit, old(State()))
    {
      if handId.Some? {
        return None;
      }
      var refused := coordinator.StartHand();
      if refused.Some? {
        return Some(Refused(refused.value));
      }
      if coordinator.hand == null {
        return Some(Refused(NoHand));
      }
      OpenHand();
      error := None;
    }

    method SubmitCommand(c: MatchCommand) returns (r: Result<Reply, ActorError>)
      modifies this`queue, this`inflight, this`futures
      ensures (State(), r) == Submit(old(State()), c)
    {
      if handId.None? {
        return Err(NotStarted);
      }
      if c.commandId in processed {
        var original := processed[c.commandId];
        if c != original.command {
          return Err(IdReused);
        }
        return Ok(Replayed(original.result));
      }
      if c.commandId in inflight {
        var original := inflight[c.commandId];
        if c != original.command {
          return Err(IdReused);
        }
        return Ok(Await(original.future, true));
      }
      var future := |futures|;
      futures := futures + [Pending];
      inflight := inflight[c.commandId := Queued(c, future)];
      queue := queue + [Queued(c, future)];
      r := Ok(Await(future, false));
    }

    /** Scans the legal actions for a free check. */
    static method ChooseAutomatic(h: Hand, account: AccountId) returns (r: Result<ActionType, HandError>)
      ensures r == AutomaticAction(h, account)
    {
      var legal := LegalActions(h, account);
      if legal.Err? {
        return Err(legal.error);
      }
      for i := 0 to |legal.value|
        invariant forall j :: 0 <= j < i ==>
                    !(legal.value[j].action.CheckOrCall? && legal.value[j].minAmount == Some(0))
      {
        if legal.value[i].action.CheckOrCall? && legal.value[i].minAmount == Some(0) {
          return Ok(CheckOrCall);
        }
      }
      r := Ok(Fold);
    }

    method SubmitTimeout(id: CommandId, timer: Timer, source: Source) returns (r: Result<Reply, ActorError>)
      modifies this`queue, this`inflight, this`futures
      ensures (State(), r) == ActorState.SubmitTimeout(old(State()), id, timer, source)
    {
      if source.Player? {
        return Err(NotATimeoutSource);
      }
      var snapshot := CurrentSnapshot(State());
      if snapshot.Err? {
        return Err(snapshot.error);
      }
      if snapshot.value.public.actor.None? {
        return Err(NoCurrentActor);
      }
      if coordinator.hand == null {
        return Err(Refused(NoHand));
      }
      var account := snapshot.value.public.actor.value;
      var action := ChooseAutomatic(coordinator.hand.State(), account);
      if action.Err? {
        return Err(Refused(MatchState.HandRefused(action.error)));
      }
      r := SubmitCommand(MatchCommand(id, ActionCommand(account, action.value, None), Some(matchId),
                                      Some(timer.handId), Some(timer.stateVersion), source, false));
    }

    // -------------------------------------------------------------------------------------------
    // Applying
    // -------------------------------------------------------------------------------------------

    method AdvanceGame(c: MatchCommand) returns (r: Result<AppliedAction, ActorError>)
      requires Linked()
      modifies coordinator.hand
      ensures Linked() && coordinator.hand == old(coordinator.hand)
      ensures var spec := Advance(coordinator.kit, old(coordinator.State()), c);
              && (spec.Ok? ==> coordinator.State() == spec.value.0 && r == Ok(spec.value.1))
              && (spec.Err? ==> coordinator.State() == old(coordinator.State()) && r == Err(spec.error))
    {
      if c.quit {
        if !c.action.action.Fold? || c.action.amount.Some? {
          return Err(QuitNotFold);
        }
        var quit := coordinator.QuitPlayer(c.action.accountId);
        return match quit
          case Ok(_) => Ok(AppliedAction(c.action.accountId, Fold, None))
          case Err(e) => Err(Refused(e));
      }
      var applied := coordinator.ApplyAction(c.action);
      r := match applied case Ok(a) => Ok(a) case Err(e) => Err(Refused(e));
    }

    method FinishHand(c: MatchCommand, applied: AppliedAction) returns (r: Result<CommandResult, ActorError>)
      requires Linked()
      modifies this, coordinator
      ensures Linked()
      ensures coordinator.hand == old(coordinator.hand) || coordinator.hand == null || fresh(coordinator.hand)
      ensures (State(), r) == ActorState.FinishHand(coordinator.kit, old(State()), c, applied)
    {
      hide MatchState.SettleHand, MatchState.StartHand, PublicView, PlayerIndex;
      ghost var before := State();
      if handId.None? {
        return Err(NotStarted);
      }
      if coordinator.handBlinds.None? {
        return Err(Refused(NoHand));
      }
      var game := coordinator.State();
      var public := Stamped(game, stateVersion);
      var settled := coordinator.SettleHand();
      if settled.Err? {
        return Err(Refused(settled.error));
      }
      var completed := CompletedHand(handId.value, game.handNumber, ButtonAccount(game), game.handBlinds.value,
                                     public, handStartingStacks, settled.value, handActions);
      if coordinator.status.Active? {
        var refused := coordinator.StartHand();
        if refused.Some? {
          return Err(Refused(refused.value));
        }
        if coordinator.hand == null {
          return Err(Refused(NoHand));
        }
        OpenHand();
        return Ok(CommandResult(c.commandId, applied, Stamped(coordinator.State(), stateVersion), coordinator.status,
                                stateVersion, matchId, coordinator.handNumber, Some(completed), QuitAccount(c)));
      }
      var final := SettledView(public, settled.value);
      terminal := Some(ActorSnapshot(matchId, handId.value, game.handNumber, ButtonAccount(game), final, handActions));
      actionTimer := None;
      disconnectTimer := None;
      r := Ok(CommandResult(c.commandId, applied, final, coordinator.status, stateVersion, matchId, handId.value,
                            Some(completed), QuitAccount(c)));
    }

    /** After the engine accepted: version and log, then the end of the hand or a fresh timer. */
    method Conclude(c: MatchCommand, street: Street, applied: AppliedAction, ghost before: Actor)
      returns (r: Result<CommandResult, ActorError>)
      requires Linked() && coordinator.hand != null && before.game.hand.Some?
      requires street == PublicView(before.game.hand.value).street && State() == before.(game := coordinator.State())
      modifies this, coordinator
      ensures Linked()
      ensures coordinator.hand == old(coordinator.hand) || coordinator.hand == null || fresh(coordinator.hand)
      ensures (State(), r) == ActorState.Conclude(coordinator.kit, before, c, old(coordinator.State()), applied)
    {
      hide ActorState.FinishHand, PublicView;
      stateVersion := stateVersion + 1;
      handActions := handActions + [HandAction(|handActions| + 1, stateVersion, applied.accountId, street,
                                               applied.action, applied.amount)];
      if coordinator.hand.State().Complete() {
        r := FinishHand(c, applied);
        return;
      }
      ScheduleActionTimer();
      r := Ok(CommandResult(c.commandId, applied, Stamped(coordinator.State(), stateVersion), coordinator.status,
                            stateVersion, matchId, if handId.Some? then handId.value else 0, None, QuitAccount(c)));
    }

    method ApplyCommand(c: MatchCommand) returns (r: Result<CommandResult, ActorError>)
      requires Linked()
      modifies this, coordinator, coordinator.hand
      ensures Linked()
      ensures coordinator.hand == old(coordinator.hand) || coordinator.hand == null || fresh(coordinator.hand)
      ensures (State(), r) == Apply(coordinator.kit, old(State()), c)
    {
      hide ActorState.Conclude, Advance, PublicView, ValidateCurrent;
      ghost var before := State();
      var refusal := ValidateCurrent(State(), c);
      if refusal.Some? {
        return Err(refusal.value);
      }
      if coordinator.hand == null {
        return Err(Refused(NoHand));
      }
      var street := PublicView(coordinator.hand.State()).street;
      var advanced := AdvanceGame(c);
      if advanced.Err? {
        return Err(advanced.error);
      }
      r := Conclude(c, street, advanced.value, before);
    }

    // -------------------------------------------------------------------------------------------
    // The queue loop
    // -------------------------------------------------------------------------------------------

    /** One iteration up to the point where the result is recorded. */
    method TakeNext()
      requires Linked() && queue != [] && delivering.None?
      modifies this, coordinator, coordinator.hand
      ensures Linked()
      ensures coordinator.hand == old(coordinator.hand) || coordinator.hand == null || fresh(coordinator.hand)
      ensures State() == RunNext(coordinator.kit, old(State()))
    {
      hide Apply, RecordOutcome;
      var next := queue[0];
      queue := queue[1..];
      var outcome := ApplyCommand(next.command);
      Record(next, outcome);
    }

    /** The command is no longer pending; a refusal goes to its waiter at once, a result is kept. */
    method Record(next: Queued, outcome: Result<CommandResult, ActorError>)
      modifies this`inflight, this`futures, this`processed, this`delivering
      ensures State() == RecordOutcome(old(State()), next, outcome)
    {
      inflight := inflight - {next.command.commandId};
      match outcome
      case Err(e) =>
        if next.future < |futures| && futures[next.future].Pending? {
          futures := futures[next.future := Failed(e)];
        }
      case Ok(result) =>
        processed := processed[next.command.commandId := Processed(next.command, result)];
        delivering := Some(Delivery(next.future, result));
    }

    /** The rest of the iteration: a result goes to its future unless that was cancelled meanwhile. */
    method DeliverResult()
      requires delivering.Some?
      modifies this`futures, this`delivering
      ensures State() == Deliver(old(State()))
    {
      var d := delivering.value;
      if d.future < |futures| && futures[d.future].Pending? {
        futures := futures[d.future := Done(d.result)];
      }
      delivering := None;
    }

    /** The loop itself, for as long as commands are waiting. */
    method Run()
      requires Linked() && delivering.None?
      modifies this, coordinator, coordinator.hand
      ensures Linked()
      ensures State() == RunAll(coordinator.kit, old(State()))
    {
      while queue != []
        invariant Linked() && delivering.None?
        invariant coordinator.hand == old(coordinator.hand) || coordinator.hand == null || fresh(coordinator.hand)
        invariant RunAll(coordinator.kit, State()) == RunAll(coordinator.kit, old(State()))
        decreases |queue|
      {
        hide RunAll, RunNext, Deliver;
        RunAllStep(coordinator.kit, State());
        TakeNext();
        if delivering.Some? {
          DeliverResult();
        }
      }
    }
  }
}
