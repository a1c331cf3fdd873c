/** What holds of a match whatever its players, timers and connections do. */
module ActorTheorems {
  import opened Prelude
  import opened Blinds
  import opened PokerHand
  import opened MatchState
  import opened ActorState
  import opened ActorApply
  import opened ActorRuns

  /** One step either leaves the game alone or applies exactly one command to it. */
  lemma StepEffect(kit: PokerKit, w: World, e: Event)
    requires Lawful(kit) && WorldInv(w)
    ensures var v := Step(kit, w, e);
            || Unmoved(w, v)
            || (&& w.actor.terminal.None?
                && v.actor.stateVersion == w.actor.stateVersion + 1
                && |v.applied| == |w.applied| + 1 && v.applied[..|w.applied|] == w.applied
                && TotalChips(v.actor.game) + v.lost == TotalChips(w.actor.game) + w.lost
                && v.actor.game.playerIds == w.actor.game.playerIds && v.actor.game.rules == w.actor.game.rules
                && v.actor.matchId == w.actor.matchId
                && v.lost >= w.lost
                && (HandsSettled(w) ==> HandsSettled(v))
                && (forall account ::
                      StackOf(w.actor.game.stacks, account) <= 0 ==> StackOf(v.actor.game.stacks, account) == 0))
  {
    hide ActorInv, Journal, QueueAgrees, Recorded, Versioned, Answered, Lawful, Apply, TotalChips, StackOf, HandsSettled;
    match e
    case SubmitCommand(c) => SubmittedInv(w, c);
    case TimerFires(id, timer, source) =>
      var made := TimeoutCommand(w.actor, id, timer, source);
      if made.Ok? {
        SubmittedInv(w, made.value);
      }
    case ScheduleOffline(account) =>
    case CancelOffline(account) =>
    case CancelFuture(f) =>
    case TakeNext =>
      if w.actor.queue != [] && w.actor.delivering.None? {
        if Apply(kit, w.actor.(queue := w.actor.queue[1..]), w.actor.queue[0].command).1.Ok? {
          AcceptedInv(kit, w);
          CollectedNonNegative(w.actor);
        } else {
          RefusedInv(kit, w);
        }
      }
    case DeliverResult =>
  }

  lemma CollectedNonNegative(s: Actor)
    requires ActorInv(s)
    ensures s.game.hand.Some? ==> s.game.hand.value.table.collected >= 0
  {
  }

  // ---------------------------------------------------------------------------------------------
  // Exactly once
  // ---------------------------------------------------------------------------------------------

  /** An id is pending or processed but never both, and is applied at most once. */
  ghost predicate OnePlacePerId(w: World) {
    && w.actor.inflight.Keys !! w.actor.processed.Keys
    && (forall i, j :: 0 <= i < j < |w.applied| ==>
          w.applied[i].command.commandId != w.applied[j].command.commandId)
    && (forall id :: id in w.actor.processed ==>
          exists i :: 0 <= i < |w.applied| && w.applied[i].command.commandId == id)
  }

  /** Whoever waits for a command, first or as a replay, can only be handed the one recorded result. */
  ghost predicate OneAnswerPerId(w: World) {
    && (forall i :: 0 <= i < |w.applied| ==> HasResult(w.actor, w.applied[i].command, w.applied[i].result))
    && |w.owner| == |w.actor.futures|
    && (forall f :: 0 <= f < |w.owner| && w.actor.futures[f].Done? ==>
          HasResult(w.actor, w.owner[f], w.actor.futures[f].result))
    && (forall id :: id in w.actor.inflight ==>
          w.actor.inflight[id].future < |w.owner| && w.owner[w.actor.inflight[id].future] == w.actor.inflight[id].command)
  }

  lemma OnceFacts(w: World)
    requires QueueAgrees(w.actor) && Recorded(w) && Answered(w)
    ensures OnePlacePerId(w) && OneAnswerPerId(w)
  {
  }

  /** Commands are exactly-once under every interleaving of submissions, retries, failures and queue steps. */
  lemma ExactlyOnce(kit: PokerKit, game: Match, states: seq<World>, events: seq<Event>, i: nat)
    requires MatchRun(kit, game, states, events) && i < |states|
    ensures OnePlacePerId(states[i]) && OneAnswerPerId(states[i])
  {
    RunInv(kit, game, states, events, i);
    hide ActorInv, Journal, Versioned, QueueAgrees, Recorded, Answered, MatchRun;
    OnceFacts(states[i]);
  }

  predicate Remembers(w: World, id: CommandId, original: Processed) {
    id in w.actor.processed && w.actor.processed[id] == original
  }

  lemma StepRemembers(kit: PokerKit, w: World, e: Event, id: CommandId, original: Processed)
    requires Lawful(kit) && WorldInv(w) && Remembers(w, id, original)
    ensures Remembers(Step(kit, w, e), id, original)
  {
    hide ActorInv, Journal, Recorded, Versioned, Answered, Lawful, Apply;
    StepEffect(kit, w, e);
    if e.TakeNext? && w.actor.queue != [] && w.actor.delivering.None? {
      var s := w.actor.(queue := w.actor.queue[1..]);
      ActorFrame(w.actor, s);
      ApplyAllOrNothing(kit, s, w.actor.queue[0].command);
      FreshHead(w.actor);
    }
  }

  lemma {:induction false} RemembersForever(kit: PokerKit, game: Match, states: seq<World>, events: seq<Event>, i: nat,
                                            j: nat, id: CommandId, original: Processed)
    requires MatchRun(kit, game, states, events) && i <= j < |states| && Remembers(states[i], id, original)
    ensures Remembers(states[j], id, original)
    decreases j
  {
    hide WorldInv, Lawful, Step, MatchRun, Remembers;
    if i < j {
      RunLength(kit, game, states, events);
      RemembersForever(kit, game, states, events, i, j - 1, id, original);
      RunInv(kit, game, states, events, j - 1);
      StepAt(kit, game, states, events, j - 1);
      StepRemembers(kit, states[j - 1], events[j - 1], id, original);
    }
  }

  /**
   * An applied command is remembered for good: after any further events its exact copy is answered with the
   * original result, any other payload under its id is refused, and neither changes the actor.
   */
  lemma ReplaysForever(kit: PokerKit, game: Match, states: seq<World>, events: seq<Event>, i: nat, j: nat,
                       c: MatchCommand, original: Processed)
    requires MatchRun(kit, game, states, events) && i <= j < |states| && Remembers(states[i], c.commandId, original)
    ensures Submit(states[j].actor, c) ==
            (states[j].actor, if c == original.command then Ok(Replayed(original.result)) else Err(IdReused))
  {
    hide WorldInv, Lawful, MatchRun, Submit;
    RemembersForever(kit, game, states, events, i, j, c.commandId, original);
    RunInv(kit, game, states, events, j);
    StartedAlways(states[j]);
    ProcessedReplay(states[j].actor, c);
  }

  lemma ProcessedReplay(s: Actor, c: MatchCommand)
    requires s.handId.Some? && c.commandId in s.processed
    ensures var original := s.processed[c.commandId];
            Submit(s, c) == (s, if c == original.command then Ok(Replayed(original.result)) else Err(IdReused))
  {
  }

  lemma StartedAlways(w: World)
    requires WorldInv(w)
    ensures w.actor.handId.Some?
  {
  }

  predicate WasApplied(w: World, c: MatchCommand, result: CommandResult) {
    exists k :: 0 <= k < |w.applied| && w.applied[k] == Applied(c, result)
  }

  /** The command is queued and this is the future its callers wait on. */
  predicate IsQueued(w: World, c: MatchCommand, f: FutureId) {
    exists k :: 0 <= k < |w.actor.queue| && w.actor.queue[k] == Queued(c, f)
  }

  /** The id was used by a command that is applied or queued. */
  predicate IdTaken(w: World, id: CommandId) {
    || (exists k :: 0 <= k < |w.applied| && w.applied[k].command.commandId == id)
    || (exists k :: 0 <= k < |w.actor.queue| && w.actor.queue[k].command.commandId == id)
  }

  /** The three maps behind a submission, read as the applied list and the queue. */
  lemma SubmissionMaps(w: World, c: MatchCommand)
    requires QueueAgrees(w.actor) && Recorded(w)
    ensures forall result :: WasApplied(w, c, result) <==>
              c.commandId in w.actor.processed && w.actor.processed[c.commandId] == Processed(c, result)
    ensures forall f :: IsQueued(w, c, f) <==>
              c.commandId in w.actor.inflight && w.actor.inflight[c.commandId] == Queued(c, f)
    ensures IdTaken(w, c.commandId) <==> c.commandId in w.actor.processed || c.commandId in w.actor.inflight
  {
    if c.commandId in w.actor.processed {
      var k :| 0 <= k < |w.applied| && w.applied[k].command.commandId == c.commandId;
      assert w.applied[k] == Applied(w.applied[k].command, w.applied[k].result);
    }
    if c.commandId in w.actor.inflight {
      assert w.actor.inflight[c.commandId] in w.actor.queue;
    }
  }

  /**
   * At any moment of a run a submission is answered with a result exactly when this very command was applied
   * with it, joins a pending one, on the same future, exactly when this very command is queued, is queued under
   * a new future exactly when its id was never seen or has failed, and is refused otherwise.
   */
  lemma SubmitAnswers(kit: PokerKit, game: Match, states: seq<World>, events: seq<Event>, i: nat, c: MatchCommand)
    requires MatchRun(kit, game, states, events) && i < |states|
    ensures var w := states[i];
            var (next, answer) := Submit(w.actor, c);
            && (forall result :: answer == Ok(Replayed(result)) <==> WasApplied(w, c, result))
            && (forall f :: answer == Ok(Await(f, true)) <==> IsQueued(w, c, f))
            && (answer == Ok(Await(|w.actor.futures|, false)) <==> !IdTaken(w, c.commandId))
            && (answer.Ok? && answer.value.Await? && !answer.value.replayed ==>
                  && answer.value.future == |w.actor.futures| && next.queue == w.actor.queue + [Queued(c, |w.actor.futures|)]
                  && next.futures == w.actor.futures + [Pending])
            && (answer.Err? ==> answer == Err(IdReused))
            && (next != w.actor <==> !IdTaken(w, c.commandId))
  {
    RunInv(kit, game, states, events, i);
    StartedAlways(states[i]);
    hide ActorInv, Journal, Versioned, Answered, MatchRun, Lawful, WasApplied, IsQueued, IdTaken;
    SubmissionMaps(states[i], c);
    MapsApart(states[i].actor);
    hide QueueAgrees, Recorded;
  }

  lemma MapsApart(s: Actor)
    requires QueueAgrees(s)
    ensures s.inflight.Keys !! s.processed.Keys
  {
  }

  // ---------------------------------------------------------------------------------------------
  // Version serialisation
  // ---------------------------------------------------------------------------------------------

  /** Versions count applied commands, and no two applied commands were aimed at the same version. */
  ghost predicate Serialised(w: World) {
    && w.actor.stateVersion == |w.applied|
    && forall j, k :: 0 <= j < k < |w.applied| && w.applied[j].command.stateVersion.Some? ==>
         w.applied[j].command.stateVersion != w.applied[k].command.stateVersion
  }

  /** Of all commands, from players and timers alike, that carry one version at most one is ever applied. */
  lemma VersionsSerialise(kit: PokerKit, game: Match, states: seq<World>, events: seq<Event>, i: nat)
    requires MatchRun(kit, game, states, events) && i < |states|
    ensures Serialised(states[i])
  {
    RunInv(kit, game, states, events, i);
    hide ActorInv, Journal, QueueAgrees, Recorded, Answered, MatchRun;
  }

  /**
   * The logs of all hands together hold exactly one entry per applied command and version, in order, each
   * saying what was applied; and each hand's log is numbered from one.
   */
  lemma LogsRecordVersions(kit: PokerKit, game: Match, states: seq<World>, events: seq<Event>, i: nat)
    requires MatchRun(kit, game, states, events) && i < |states|
    ensures Journal(states[i])
  {
    RunInv(kit, game, states, events, i);
    hide ActorInv, QueueAgrees, Recorded, Answered, MatchRun, Journal;
  }

  /**
   * From one moment to a later one: the version and the hand number do not go down, within a hand the log
   * only gets longer, and at one version hand and log are the same.
   */
  ghost predicate Outgrows(w: World, v: World) {
    && w.actor.stateVersion <= v.actor.stateVersion && w.actor.game.handNumber <= v.actor.game.handNumber
    && (v.actor.game.handNumber == w.actor.game.handNumber ==> w.actor.handActions <= v.actor.handActions)
    && (v.actor.stateVersion == w.actor.stateVersion ==>
          v.actor.game.handNumber == w.actor.game.handNumber && v.actor.handActions == w.actor.handActions)
  }

  lemma AppliedOutgrows(s: Actor, t: Actor, c: MatchCommand, result: CommandResult)
    requires ActorInv(s) && ActorInv(t) && AppliedOnce(s, t, c, result)
    ensures t.stateVersion == s.stateVersion + 1 && s.game.handNumber <= t.game.handNumber
    ensures t.game.handNumber == s.game.handNumber ==> s.handActions <= t.handActions
  {
    HandIds(s);
    HandIds(t);
    hide ActorInv, ChipsKept, TotalChips;
  }

  lemma StepOutgrows(kit: PokerKit, w: World, e: Event)
    requires Lawful(kit) && WorldInv(w)
    ensures Outgrows(w, Step(kit, w, e))
  {
    hide ActorInv, Journal, QueueAgrees, Recorded, Versioned, Answered, Lawful, Apply, AppliedOnce;
    if e.TakeNext? && w.actor.queue != [] && w.actor.delivering.None? {
      var s, c := w.actor.(queue := w.actor.queue[1..]), w.actor.queue[0].command;
      ActorFrame(w.actor, s);
      ApplyAllOrNothing(kit, s, c);
      var (t, r) := Apply(kit, s, c);
      if r.Ok? {
        AppliedOutgrows(s, t, c, r.value);
      }
    }
  }

  /** What a client can be shown of the hand only ever grows with the version. */
  lemma {:induction false} LogsOnlyGrow(kit: PokerKit, game: Match, states: seq<World>, events: seq<Event>, i: nat, j: nat)
    requires MatchRun(kit, game, states, events) && i <= j < |states|
    ensures Outgrows(states[i], states[j])
    decreases j
  {
    hide WorldInv, Lawful, Step, MatchRun;
    if i < j {
      RunLength(kit, game, states, events);
      LogsOnlyGrow(kit, game, states, events, i, j - 1);
      RunInv(kit, game, states, events, j - 1);
      StepAt(kit, game, states, events, j - 1);
      StepOutgrows(kit, states[j - 1], events[j - 1]);
    }
  }

  // ---------------------------------------------------------------------------------------------
  // Chips, elimination, progress
  // ---------------------------------------------------------------------------------------------

  /** What any run does to chips, seats and hand count, between two of its states. */
  ghost predicate Continues(w: World, v: World) {
    && TotalChips(v.actor.game) + v.lost == TotalChips(w.actor.game) + w.lost && v.lost >= w.lost
    && v.actor.game.playerIds == w.actor.game.playerIds && v.actor.game.rules == w.actor.game.rules
    && v.actor.stateVersion >= w.actor.stateVersion && v.actor.matchId == w.actor.matchId
    && (HandsSettled(w) ==> HandsSettled(v))
    && (forall account :: StackOf(w.actor.game.stacks, account) <= 0 ==> StackOf(v.actor.game.stacks, account) <= 0)
    && (v.actor.stateVersion == w.actor.stateVersion || w.actor.terminal.Some? ==> Unmoved(w, v))
  }

  lemma {:induction false} RunContinues(kit: PokerKit, game: Match, states: seq<World>, events: seq<Event>, i: nat, j: nat)
    requires MatchRun(kit, game, states, events) && i <= j < |states|
    ensures Continues(states[i], states[j])
    decreases j
  {
    hide WorldInv, Lawful, Step, TotalChips, MatchRun;
    if i < j {
      RunLength(kit, game, states, events);
      RunContinues(kit, game, states, events, i, j - 1);
      RunInv(kit, game, states, events, j - 1);
      StepAt(kit, game, states, events, j - 1);
      StepEffect(kit, states[j - 1], events[j - 1]);
    }
  }

  /**
   * Chip accounting over a whole match: what the players hold is players times starting chips, less exactly the
   * pots that were open when somebody quit.
   */
  lemma ChipAccounting(kit: PokerKit, ids: seq<AccountId>, rules: RoomRules, button: int, states: seq<World>,
                       events: seq<Event>, i: nat)
    requires ValidRules(rules) && NewMatch(ids, rules, button).Ok?
    requires MatchRun(kit, NewMatch(ids, rules, button).value, states, events) && i < |states|
    ensures TotalChips(states[i].actor.game) == rules.startingChips * |ids| - states[i].lost && states[i].lost >= 0
    ensures forall a :: a in states[i].actor.game.stacks ==> states[i].actor.game.stacks[a] >= 0
  {
    var game := NewMatch(ids, rules, button).value;
    NewMatchInv(ids, rules, button);
    hide MatchRun, NewMatch, WorldInv, Lawful, ValidRules, TotalChips;
    OpeningInv(kit, game, states, events);
    RunContinues(kit, game, states, events, 0, i);
    RunInv(kit, game, states, events, i);
    StacksNonNegative(states[i]);
  }

  lemma StacksNonNegative(w: World)
    requires WorldInv(w)
    ensures forall account :: account in w.actor.game.stacks ==> w.actor.game.stacks[account] >= 0
  {
  }

  /** Somebody without chips is not dealt in, now or ever again. */
  lemma EliminatedForever(kit: PokerKit, game: Match, states: seq<World>, events: seq<Event>, i: nat, j: nat,
                          account: AccountId)
    requires MatchRun(kit, game, states, events) && i <= j < |states|
    requires StackOf(states[i].actor.game.stacks, account) == 0
    ensures StackOf(states[j].actor.game.stacks, account) == 0 && account !in states[j].actor.game.handPlayerIds
  {
    RunContinues(kit, game, states, events, i, j);
    RunInv(kit, game, states, events, j);
    hide MatchRun;
    NotDealtIn(states[j].actor.game, account);
  }

  lemma NotDealtIn(m: Match, account: AccountId)
    requires MatchInv(m) && StackOf(m.stacks, account) <= 0
    ensures StackOf(m.stacks, account) == 0 && account !in m.handPlayerIds
  {
    FundedMembers(m.playerIds, m.stacks);
  }

  /** With a fixed number of hands, no more than that many are ever settled, and after the last the match is over. */
  lemma FixedHandsEnd(kit: PokerKit, ids: seq<AccountId>, rules: RoomRules, button: int, states: seq<World>,
                      events: seq<Event>, i: nat)
    requires ValidRules(rules) && NewMatch(ids, rules, button).Ok? && rules.endMode.FixedHands?
    requires MatchRun(kit, NewMatch(ids, rules, button).value, states, events) && i < |states|
    ensures |states[i].archived| <= rules.fixedHandCount.value
    ensures |states[i].archived| == rules.fixedHandCount.value ==> states[i].actor.game.status.Complete?
  {
    var game := NewMatch(ids, rules, button).value;
    NewMatchInv(ids, rules, button);
    hide MatchRun, NewMatch, WorldInv, Lawful, ValidRules, TotalChips;
    OpeningInv(kit, game, states, events);
    RunContinues(kit, game, states, events, 0, i);
    RunInv(kit, game, states, events, i);
    HandsBounded(states[i], rules);
  }

  lemma HandsBounded(w: World, rules: RoomRules)
    requires WorldInv(w) && HandsSettled(w) && w.actor.game.rules == rules && rules.endMode.FixedHands?
    ensures rules.fixedHandCount.Some? && |w.archived| <= rules.fixedHandCount.value
    ensures |w.archived| == rules.fixedHandCount.value ==> w.actor.game.status.Complete?
  {
  }

  /** A complete match is frozen: no event changes it or what it shows, and no command is accepted any more. */
  lemma CompleteIsFinal(kit: PokerKit, game: Match, states: seq<World>, events: seq<Event>, i: nat, j: nat,
                        c: MatchCommand)
    requires MatchRun(kit, game, states, events) && i <= j < |states| && states[i].actor.game.status.Complete?
    ensures Unmoved(states[i], states[j]) && CurrentSnapshot(states[j].actor) == CurrentSnapshot(states[i].actor)
    ensures Apply(kit, states[j].actor, c).1.Err? && Apply(kit, states[j].actor, c).0 == states[j].actor
  {
    RunContinues(kit, game, states, events, i, j);
    RunInv(kit, game, states, events, i);
    RunInv(kit, game, states, events, j);
    hide MatchRun, Apply;
    FrozenFacts(states[i]);
    FrozenFacts(states[j]);
    CompleteRefuses(kit, states[j].actor, c);
  }

  lemma FrozenFacts(w: World)
    requires WorldInv(w) && w.actor.game.status.Complete?
    ensures w.actor.terminal.Some? && w.actor.game.hand.None?
    ensures w.actor.handId.Some? && CurrentSnapshot(w.actor) == Ok(w.actor.terminal.value)
  {
  }

  // ---------------------------------------------------------------------------------------------
  // Who pays
  // ---------------------------------------------------------------------------------------------

  /** The stacks at the table once a command is applied: of the hand in play, or as the hand was settled. */
  function StacksAfter(t: Actor, result: CommandResult): seq<int> {
    if result.completed.Some? then result.completed.value.settlement.finalStacks
    else if t.game.hand.Some? then t.game.hand.value.table.stacks
    else []
  }

  /** What a command may take out of the stack of the player it is for: a quitter loses all of it. */
  function CommandCost(h: Hand, c: MatchCommand): int {
    var seat := SeatAt(h, c.action.accountId);
    if !c.quit then Cost(h.table, c.action)
    else if seat.Some? && seat.value < |h.table.stacks| then h.table.stacks[seat.value]
    else 0
  }

  /** A quit takes the quitter's whole stack and nobody else's chips. */
  lemma QuitPays(h: Hand, q: nat)
    requires ValidHand(h) && h.quit.None? && q < |h.accountIds|
    ensures var finals := QuitSettlement(h.table, h.startingStacks, q).finalStacks;
            PaysAtMost(h.table.stacks, finals, Some(q), h.table.stacks[q])
  {
    QuitSplit(h, q);
    hide QuitPayouts, Chips, FairSplit;
  }

  lemma AdvancePays(kit: PokerKit, m: Match, c: MatchCommand)
    requires Lawful(kit) && MatchInv(m) && m.hand.Some? && m.hand.value.quit.None? && Advance(kit, m, c).Ok?
    ensures var h, next := m.hand.value, Advance(kit, m, c).value.0;
            && next.hand.Some?
            && PaysAtMost(h.table.stacks,
                          if next.hand.value.quit.Some? then next.hand.value.quit.value.settlement.finalStacks
                          else next.hand.value.table.stacks,
                          SeatAt(h, c.action.accountId), CommandCost(h, c))
  {
    hide Lawful, QuitSettlement, Funded, StacksOf, AmountsFor;
    var h := m.hand.value;
    if c.quit {
      QuitPays(h, SeatAt(h, c.action.accountId).value);
    } else {
      ApplyActionValid(kit, h, c.action);
    }
  }

  /** In every accepted command nobody pays but its own player, and that one no more than the action is worth. */
  lemma OnlyOwnChips(kit: PokerKit, s: Actor, c: MatchCommand)
    requires Lawful(kit) && ActorInv(s) && s.game.hand.Some? && Apply(kit, s, c).1.Ok?
    ensures var (t, r) := Apply(kit, s, c);
            var h := s.game.hand.value;
            PaysAtMost(h.table.stacks, StacksAfter(t, r.value), SeatAt(h, c.action.accountId), CommandCost(h, c))
  {
    GameValid(s);
    hide ActorInv, MatchInv, Lawful, Advance, FinishHand, PublicView, CommandCost, ValidateCurrent, PaysAtMost;
    AdvancePays(kit, s.game, c);
    var (game, applied) := Advance(kit, s.game, c).value;
    if game.hand.value.Complete() {
      FinishCompletes(kit, Logged(s, game, PublicView(s.game.hand.value).street, applied), c, applied);
    }
  }

  // ---------------------------------------------------------------------------------------------
  // Timers
  // ---------------------------------------------------------------------------------------------

  /**
   * A timer's action is chosen when it fires and applied later. Whenever it is accepted, the game is still the
   * one it was chosen in, so it folds or checks for free: no stack at the table goes down.
   */
  lemma TimerNeverPays(kit: PokerKit, game: Match, states: seq<World>, events: seq<Event>, i: nat, j: nat,
                       id: CommandId, timer: Timer, source: Source)
    requires MatchRun(kit, game, states, events) && i <= j < |states|
    requires timer.stateVersion <= states[i].actor.stateVersion
    requires TimeoutCommand(states[i].actor, id, timer, source).Ok?
    ensures var c := TimeoutCommand(states[i].actor, id, timer, source).value;
            var r := Apply(kit, states[j].actor, c).1;
            r.Ok? ==>
              && states[j].actor.game == states[i].actor.game
              && timer == Timer(states[j].actor.game.handNumber, states[j].actor.stateVersion)
              && NothingPaid(r.value.applied)
              && states[j].actor.game.hand.Some?
              && PaysAtMost(states[j].actor.game.hand.value.table.stacks,
                            StacksAfter(Apply(kit, states[j].actor, c).0, r.value), None, 0)
  {
    hide WorldInv, Lawful, MatchRun, TimeoutCommand, Apply, ActorInv, AutomaticAction, NothingPaid;
    RunContinues(kit, game, states, events, i, j);
    RunInv(kit, game, states, events, i);
    RunInv(kit, game, states, events, j);
    var w, v := states[i], states[j];
    var c := TimeoutCommand(w.actor, id, timer, source).value;
    Invariants(w);
    Invariants(v);
    TimeoutFields(w.actor, id, timer, source);
    if Apply(kit, v.actor, c).1.Ok? {
      ApplyAllOrNothing(kit, v.actor, c);
      AutomaticIsFree(kit, v.actor, c, w.actor);
      HandIds(v.actor);
    }
  }

  predicate NothingPaid(applied: AppliedAction) {
    (applied.action == Fold && applied.amount == None) || (applied.action == CheckOrCall && applied.amount == Some(0))
  }

  lemma Invariants(w: World)
    requires WorldInv(w)
    ensures ActorInv(w.actor)
  {
  }

  /** A timer's command: the current player's automatic action under the identity the timer was armed with. */
  lemma TimeoutFields(s: Actor, id: CommandId, timer: Timer, source: Source)
    requires ActorInv(s) && TimeoutCommand(s, id, timer, source).Ok?
    ensures var c := TimeoutCommand(s, id, timer, source).value;
            && s.game.hand.Some? && !source.Player?
            && c == MatchCommand(id, c.action, Some(s.matchId), Some(timer.handId), Some(timer.stateVersion), source, false)
            && Stamped(s.game, s.stateVersion).actor == Some(c.action.accountId)
            && AutomaticAction(s.game.hand.value, c.action.accountId) == Ok(c.action.action)
            && c.action.amount.None?
  {
  }

  lemma AutomaticIsFree(kit: PokerKit, s: Actor, c: MatchCommand, chosenIn: Actor)
    requires Lawful(kit) && ActorInv(s) && s.game == chosenIn.game && s.game.hand.Some? && !c.quit
    requires AutomaticAction(s.game.hand.value, c.action.accountId) == Ok(c.action.action) && c.action.amount.None?
    ensures var r := Apply(kit, s, c).1;
            r.Ok? ==> NothingPaid(r.value.applied)
                      && PaysAtMost(s.game.hand.value.table.stacks, StacksAfter(Apply(kit, s, c).0, r.value), None, 0)
  {
    hide ActorInv, Lawful, Conclude, AutomaticAction, ValidateCurrent, PublicView, MatchInv, StacksAfter;
    if Apply(kit, s, c).1.Ok? {
      OnlyOwnChips(kit, s, c);
      GameValid(s);
      AdvanceInv(kit, s.game, c);
      var (game, applied) := Advance(kit, s.game, c).value;
      ConcludeReports(kit, s, c, game, applied);
      FreeCheck(s.game.hand.value, c.action.accountId);
    }
  }

  lemma GameValid(s: Actor)
    requires ActorInv(s)
    ensures MatchInv(s.game) && (s.game.hand.Some? ==> s.game.hand.value.quit.None?)
  {
  }

  lemma ConcludeReports(kit: PokerKit, s: Actor, c: MatchCommand, game: Match, applied: AppliedAction)
    requires s.game.hand.Some?
    ensures var r := Conclude(kit, s, c, game, applied).1;
            r.Ok? ==> r.value.applied == applied
  {
  }

  /** The automatic action is a check exactly when the table asks for nothing more. */
  lemma FreeCheck(h: Hand, account: AccountId)
    requires AutomaticAction(h, account).Ok?
    ensures var action := AutomaticAction(h, account).value;
            && (action == CheckOrCall || action == Fold)
            && (action == CheckOrCall <==> h.table.showdown != PlayerIndex(h.accountIds, account)
                                           && h.table.callAmount == Some(0))
  {
    var legal := LegalActions(h, account).value;
    var t := h.table;
    if h.table.showdown != PlayerIndex(h.accountIds, account) && t.callAmount.Some? {
      assert legal[if t.canFold then 1 else 0] == LegalAction(CheckOrCall, t.callAmount, t.callAmount);
    }
  }

  /** Whoever is to act can always fold, and check when that is what the automatic action says. */
  lemma AutomaticIsLegal(kit: PokerKit, h: Hand)
    requires ValidHand(h) && h.quit.None? && h.table.actor.Some?
    ensures var account := h.accountIds[h.table.actor.value];
            var action := AutomaticAction(h, account);
            && PublicView(h).actor == Some(account)
            && action.Ok? && ApplyAction(kit, h, ActionCommand(account, action.value, None)).Ok?
  {
    var account := h.accountIds[h.table.actor.value];
    SeatOf(h.accountIds, h.table.actor.value);
    FreeCheck(h, account);
  }

  /** On a betting street the current timer gets its way. */
  lemma CurrentTimerAccepted(kit: PokerKit, s: Actor, id: CommandId, source: Source)
    requires Lawful(kit) && ActorInv(s) && !source.Player?
    requires s.game.hand.Some? && s.game.hand.value.table.actor.Some?
    ensures var made := TimeoutCommand(s, id, Timer(s.game.handNumber, s.stateVersion), source);
            && made.Ok? && made.value.action.accountId == s.game.hand.value.accountIds[s.game.hand.value.table.actor.value]
            && Apply(kit, s, made.value).1.Ok?
  {
    AutomaticIsLegal(kit, s.game.hand.value);
    var c := TimeoutCommand(s, id, Timer(s.game.handNumber, s.stateVersion), source).value;
    AcceptedWhenEngineAccepts(kit, s, c);
  }

  /** A command aimed at the current state is applied exactly when the engine takes it. */
  lemma AcceptedWhenEngineAccepts(kit: PokerKit, s: Actor, c: MatchCommand)
    requires Lawful(kit) && ActorInv(s) && s.game.hand.Some? && ValidateCurrent(s, c).None?
    ensures Apply(kit, s, c).1.Ok? <==> Advance(kit, s.game, c).Ok?
  {
    AdvanceInv(kit, s.game, c);
    var advanced := Advance(kit, s.game, c);
    if advanced.Ok? {
      var (game, applied) := advanced.value;
      if game.hand.value.Complete() {
        EndHandInv(kit, s, c, game, applied);
      } else {
        ContinueInv(kit, s, c, game, applied);
      }
    }
  }

  /** At showdown it does not: the chosen fold is refused. */
  lemma ShowdownTimerRefused(kit: PokerKit, s: Actor, id: CommandId, source: Source)
    requires ActorInv(s) && !source.Player?
    requires s.game.hand.Some? && s.game.hand.value.table.showdown.Some?
    ensures var made := TimeoutCommand(s, id, Timer(s.game.handNumber, s.stateVersion), source);
            made.Ok? && made.value.action.action == Fold && Apply(kit, s, made.value).1.Err?
  {
    var h := s.game.hand.value;
    SeatOf(h.accountIds, h.table.showdown.value);
    FreeCheck(h, h.accountIds[h.table.showdown.value]);
  }

  /** The command depends on the game and the identities alone. */
  lemma TimeoutUnmoved(w: World, v: World, id: CommandId, timer: Timer, source: Source)
    requires Unmoved(w, v) && TimeoutCommand(w.actor, id, timer, source).Ok?
    ensures TimeoutCommand(v.actor, id, timer, source) == TimeoutCommand(w.actor, id, timer, source)
  {
    hide PublicView, AutomaticAction;
  }

  /** Somebody is to act, on a betting street. */
  predicate Betting(m: Match) {
    m.hand.Some? && m.hand.value.table.actor.Some?
  }

  lemma TurnTaken(s: Actor)
    requires ActorInv(s) && s.game.hand.Some? && Stamped(s.game, s.stateVersion).actor.Some?
    ensures Betting(s.game) || s.game.hand.value.table.showdown.Some?
  {
  }

  lemma CurrentTimerIff(kit: PokerKit, s: Actor, id: CommandId, source: Source)
    requires Lawful(kit) && ActorInv(s)
    requires TimeoutCommand(s, id, Timer(s.game.handNumber, s.stateVersion), source).Ok?
    ensures Apply(kit, s, TimeoutCommand(s, id, Timer(s.game.handNumber, s.stateVersion), source).value).1.Ok? <==>
            Betting(s.game)
  {
    hide ActorInv, Lawful, Apply, TimeoutCommand, AutomaticAction, PublicView, Stamped;
    TimeoutFields(s, id, Timer(s.game.handNumber, s.stateVersion), source);
    TurnTaken(s);
    if Betting(s.game) {
      CurrentTimerAccepted(kit, s, id, source);
    } else {
      ShowdownTimerRefused(kit, s, id, source);
    }
  }

  /**
   * A timer fires at some moment of a run and its command is met at a later one, with anything in between.
   * It is applied exactly when hand and version are still those the timer was armed with and the hand is on a
   * betting street; otherwise nothing changes. So a late timer and a timer at showdown never have any effect.
   */
  lemma TimerAppliedIff(kit: PokerKit, game: Match, states: seq<World>, events: seq<Event>, i: nat, j: nat,
                        id: CommandId, timer: Timer, source: Source)
    requires MatchRun(kit, game, states, events) && i <= j < |states|
    requires timer.stateVersion <= states[i].actor.stateVersion
    requires TimeoutCommand(states[i].actor, id, timer, source).Ok?
    ensures var s := states[j].actor;
            var (t, r) := Apply(kit, s, TimeoutCommand(states[i].actor, id, timer, source).value);
            && (r.Ok? <==> timer == Timer(s.game.handNumber, s.stateVersion) && Betting(s.game))
            && (r.Err? ==> t == s)
  {
    hide WorldInv, Lawful, MatchRun, TimeoutCommand, Apply, ActorInv, AutomaticAction, NothingPaid, TotalChips, StackOf, Betting;
    TimerNeverPays(kit, game, states, events, i, j, id, timer, source);
    RunContinues(kit, game, states, events, i, j);
    RunInv(kit, game, states, events, j);
    var w, v := states[i], states[j];
    Invariants(v);
    ApplyAllOrNothing(kit, v.actor, TimeoutCommand(w.actor, id, timer, source).value);
    if timer == Timer(v.actor.game.handNumber, v.actor.stateVersion) {
      TimeoutUnmoved(w, v, id, timer, source);
      CurrentTimerIff(kit, v.actor, id, source);
    }
  }
}
