/** The match actor's protocol on values: submission, one queue step, timers, and the apply at its heart. */
module ActorState {
  import opened Prelude
  import opened Blinds
  import opened PokerHand
  import opened MatchState

  type CommandId = nat
  type MatchId = nat
  type HandId = nat
  type FutureId = nat

  datatype Source = Player | Timeout | DisconnectTimeout

  datatype MatchCommand = MatchCommand(
    commandId: CommandId,
    action: ActionCommand,
    matchId: Option<MatchId>,
    handId: Option<HandId>,
    stateVersion: Option<int>,
    source: Source,
    quit: bool)

  datatype HandAction = HandAction(
    sequenceNo: nat,
    stateVersion: nat,
    accountId: AccountId,
    street: Street,
    action: ActionType,
    amount: Option<int>)

  datatype CompletedHand = CompletedHand(
    handId: HandId,
    handNumber: nat,
    buttonAccountId: AccountId,
    blinds: BlindAmounts,
    public: PublicSnapshot,
    startingStacks: seq<int>,
    settlement: Settlement,
    actions: seq<HandAction>)

  datatype CommandResult = CommandResult(
    commandId: CommandId,
    applied: AppliedAction,
    snapshot: PublicSnapshot,
    matchStatus: MatchStatus,
    stateVersion: nat,
    matchId: MatchId,
    handId: HandId,
    completed: Option<CompletedHand>,
    quitAccount: Option<AccountId>)

  datatype ActorSnapshot = ActorSnapshot(
    matchId: MatchId,
    handId: HandId,
    handNumber: nat,
    buttonAccountId: AccountId,
    public: PublicSnapshot,
    actions: seq<HandAction>)

  datatype ActorError =
    | NotStarted
    | QuitNotFromPlayer
    | QuitWithoutIdentity
    | TimeoutWithoutIdentity
    | OtherMatch
    | OtherHand
    | StaleVersion
    | IdReused
    | QuitNotFold
    | NoCurrentActor
    | NotATimeoutSource
    | Refused(error: MatchError)

  datatype FutureState = Pending | Done(result: CommandResult) | Failed(error: ActorError) | Cancelled

  datatype Queued = Queued(command: MatchCommand, future: FutureId)

  datatype Processed = Processed(command: MatchCommand, result: CommandResult)

  datatype Delivery = Delivery(future: FutureId, result: CommandResult)

  datatype Timer = Timer(handId: HandId, stateVersion: nat)

  datatype DisconnectTimer = DisconnectTimer(accountId: AccountId, timer: Timer)

  datatype Reply = Replayed(result: CommandResult) | Await(future: FutureId, replayed: bool)

  datatype Actor = Actor(
    matchId: MatchId,
    game: Match,
    decisionTimeout: Option<int>,
    handId: Option<HandId>,
    handStartingStacks: seq<int>,
    handActions: seq<HandAction>,
    terminal: Option<ActorSnapshot>,
    queue: seq<Queued>,
    inflight: map<CommandId, Queued>,
    processed: map<CommandId, Processed>,
    futures: seq<FutureState>,
    delivering: Option<Delivery>,
    stateVersion: nat,
    actionTimer: Option<Timer>,
    disconnectTimer: Option<DisconnectTimer>)

  // ---------------------------------------------------------------------------------------------
  // Snapshots and timers
  // ---------------------------------------------------------------------------------------------

  function ButtonAccount(m: Match): AccountId {
    if m.buttonIndex < |m.playerIds| then m.playerIds[m.buttonIndex] else 0
  }

  /** The public view stamped with the actor's version; between hands there is nothing to show. */
  function Stamped(m: Match, version: nat): PublicSnapshot {
    match m.hand
    case Some(h) => PublicView(h).(stateVersion := version)
    case None => PublicSnapshot([], [], [], [], [], [], None, Settled, true, version)
  }

  function CurrentSnapshot(s: Actor): Result<ActorSnapshot, ActorError> {
    if s.handId.None? then Err(NotStarted)
    else if s.terminal.Some? then Ok(s.terminal.value)
    else if s.game.hand.None? then Err(Refused(NoHand))
    else
      Ok(ActorSnapshot(s.matchId, s.handId.value, s.game.handNumber, ButtonAccount(s.game),
                       Stamped(s.game, s.stateVersion), s.handActions))
  }

  /** Both timers are cancelled; a fresh action timer is armed when somebody is to act under a time limit. */
  function ScheduleActionTimer(s: Actor): Actor {
    s.(disconnectTimer := None,
       actionTimer := if s.decisionTimeout.Some? && s.handId.Some? && Stamped(s.game, s.stateVersion).actor.Some?
                      then Some(Timer(s.handId.value, s.stateVersion)) else None)
  }

  function ScheduleDisconnect(s: Actor, account: AccountId): (Actor, Result<bool, ActorError>) {
    if s.decisionTimeout.Some? then (s, Ok(false))
    else
      match CurrentSnapshot(s)
      case Err(e) => (s, Err(e))
      case Ok(snapshot) =>
        if snapshot.public.actor != Some(account) then (s, Ok(false))
        else
          (s.(disconnectTimer :=
                Some(DisconnectTimer(account, Timer(snapshot.handId, snapshot.public.stateVersion)))), Ok(true))
  }

  function CancelDisconnect(s: Actor, account: AccountId): Actor {
    if s.disconnectTimer.Some? && s.disconnectTimer.value.accountId == account
    then s.(disconnectTimer := None) else s
  }

  // ---------------------------------------------------------------------------------------------
  // Starting and submitting
  // ---------------------------------------------------------------------------------------------

  function NewActor(matchId: MatchId, game: Match, decisionTimeout: Option<int>): Actor {
    Actor(matchId, game, decisionTimeout, None, [], [], None, [], map[], map[], [], None, 0, None, None)
  }

  /** A fresh hand id for every hand; hand numbers never repeat, so they serve as the fresh values. */
  function OpenHand(s: Actor, game: Match): Actor
    requires game.hand.Some?
  {
    ScheduleActionTimer(
      s.(game := game, handId := Some(game.handNumber),
         handStartingStacks := game.hand.value.startingStacks, handActions := []))
  }

  function Start(kit: PokerKit, s: Actor): (Actor, Option<ActorError>) {
    if s.handId.Some? then (s, None)
    else
      var (game, error) := StartHand(kit, s.game);
      if error.Some? then (s.(game := game), Some(Refused(error.value)))
      else if game.hand.None? then (s.(game := game), Some(Refused(NoHand)))
      else (OpenHand(s, game), None)
  }

  function Submit(s: Actor, c: MatchCommand): (Actor, Result<Reply, ActorError>) {
    if s.handId.None? then (s, Err(NotStarted))
    else if c.commandId in s.processed then
      var original := s.processed[c.commandId];
      (s, if c != original.command then Err(IdReused) else Ok(Replayed(original.result)))
    else if c.commandId in s.inflight then
      var original := s.inflight[c.commandId];
      (s, if c != original.command then Err(IdReused) else Ok(Await(original.future, true)))
    else
      var queued := Queued(c, |s.futures|);
      (s.(inflight := s.inflight[c.commandId := queued], queue := s.queue + [queued], futures := s.futures + [Pending]),
       Ok(Await(|s.futures|, false)))
  }

  /** What a timer plays for a player: a check when checking is free, otherwise a fold. */
  function AutomaticAction(h: Hand, account: AccountId): Result<ActionType, HandError> {
    match LegalActions(h, account)
    case Err(e) => Err(e)
    case Ok(legal) =>
      Ok(if exists i :: 0 <= i < |legal| && legal[i].action.CheckOrCall? && legal[i].minAmount == Some(0)
         then CheckOrCall else Fold)
  }

  function TimeoutCommand(s: Actor, id: CommandId, timer: Timer, source: Source): Result<MatchCommand, ActorError> {
    if source.Player? then Err(NotATimeoutSource)
    else
      match CurrentSnapshot(s)
      case Err(e) => Err(e)
      case Ok(snapshot) =>
        if snapshot.public.actor.None? then Err(NoCurrentActor)
        else if s.game.hand.None? then Err(Refused(NoHand))
        else
          var account := snapshot.public.actor.value;
          match AutomaticAction(s.game.hand.value, account)
          case Err(e) => Err(Refused(MatchState.HandRefused(e)))
          case Ok(action) =>
            Ok(MatchCommand(id, ActionCommand(account, action, None), Some(s.matchId), Some(timer.handId),
                            Some(timer.stateVersion), source, false))
  }

  function SubmitTimeout(s: Actor, id: CommandId, timer: Timer, source: Source)
    : (Actor, Result<Reply, ActorError>)
  {
    match TimeoutCommand(s, id, timer, source)
    case Err(e) => (s, Err(e))
    case Ok(c) => Submit(s, c)
  }

  // ---------------------------------------------------------------------------------------------
  // Applying a command
  // ---------------------------------------------------------------------------------------------

  predicate Unidentified(c: MatchCommand) {
    c.matchId.None? || c.handId.None? || c.stateVersion.None?
  }

  function ValidateCurrent(s: Actor, c: MatchCommand): Option<ActorError> {
    if c.quit && !c.source.Player? then Some(QuitNotFromPlayer)
    else if c.quit && Unidentified(c) then Some(QuitWithoutIdentity)
    else if !c.source.Player? && Unidentified(c) then Some(TimeoutWithoutIdentity)
    else if c.matchId.Some? && c.matchId.value != s.matchId then Some(OtherMatch)
    else if s.handId.None? then Some(NotStarted)
    else if c.handId.Some? && c.handId != s.handId then Some(OtherHand)
    else if c.stateVersion.Some? && c.stateVersion.value != s.stateVersion then Some(StaleVersion)
    else None
  }

  /** The engine's part: a quit settles the hand on the spot, anything else is an action in it. */
  function Advance(kit: PokerKit, m: Match, c: MatchCommand): Result<(Match, AppliedAction), ActorError> {
    if c.quit then
      if !c.action.action.Fold? || c.action.amount.Some? then Err(QuitNotFold)
      else
        match QuitHand(m, c.action.accountId)
        case Err(e) => Err(Refused(e))
        case Ok((next, _)) => Ok((next, AppliedAction(c.action.accountId, Fold, None)))
    else
      match ActInHand(kit, m, c.action)
      case Err(e) => Err(Refused(e))
      case Ok((next, applied)) => Ok((next, applied))
  }

  function LogEntry(s: Actor, street: Street, applied: AppliedAction): HandAction {
    HandAction(|s.handActions| + 1, s.stateVersion + 1, applied.accountId, street, applied.action, applied.amount)
  }

  function QuitAccount(c: MatchCommand): Option<AccountId> {
    if c.quit then Some(c.action.accountId) else None
  }

  /** The state after the engine moved, the version went up and the action was logged. */
  function Logged(s: Actor, game: Match, street: Street, applied: AppliedAction): Actor {
    s.(game := game, stateVersion := s.stateVersion + 1,
       handActions := s.handActions + [LogEntry(s, street, applied)])
  }

  function CompletedFrom(s: Actor, settlement: Settlement): CompletedHand
    requires s.handId.Some? && s.game.handBlinds.Some?
  {
    CompletedHand(s.handId.value, s.game.handNumber, ButtonAccount(s.game), s.game.handBlinds.value,
                  Stamped(s.game, s.stateVersion), s.handStartingStacks, settlement, s.handActions)
  }

  function SettledView(public: PublicSnapshot, settlement: Settlement): PublicSnapshot {
    public.(stacks := settlement.finalStacks, bets := seq(|settlement.finalStacks|, _ => 0),
            potAmounts := [], actor := None, street := Settled)
  }

  /** The hand is over: settle it, then deal the next one or freeze the match. */
  function FinishHand(kit: PokerKit, s: Actor, c: MatchCommand, applied: AppliedAction)
    : (Actor, Result<CommandResult, ActorError>)
  {
    if s.handId.None? then (s, Err(NotStarted))
    else if s.game.handBlinds.None? then (s, Err(Refused(NoHand)))
    else
      match SettleHand(s.game)
      case Err(e) => (s, Err(Refused(e)))
      case Ok((game, settlement)) =>
        var completed := CompletedFrom(s, settlement);
        if game.status.Active? then
          var (dealt, error) := StartHand(kit, game);
          if error.Some? then (s.(game := dealt), Err(Refused(error.value)))
          else if dealt.hand.None? then (s.(game := dealt), Err(Refused(NoHand)))
          else
            (OpenHand(s, dealt),
             Ok(CommandResult(c.commandId, applied, Stamped(dealt, s.stateVersion), dealt.status, s.stateVersion,
                              s.matchId, dealt.handNumber, Some(completed), QuitAccount(c))))
        else
          var public := SettledView(Stamped(s.game, s.stateVersion), settlement);
          (s.(game := game, actionTimer := None, disconnectTimer := None,
              terminal := Some(ActorSnapshot(s.matchId, s.handId.value, s.game.handNumber, ButtonAccount(s.game),
                                             public, s.handActions))),
           Ok(CommandResult(c.commandId, applied, public, game.status, s.stateVersion, s.matchId, s.handId.value,
                            Some(completed), QuitAccount(c))))
  }

  /** One command against the current state; an error keeps whatever had been written before it was raised. */
  function Apply(kit: PokerKit, s: Actor, c: MatchCommand): (Actor, Result<CommandResult, ActorError>) {
    var refusal := ValidateCurrent(s, c);
    if refusal.Some? then (s, Err(refusal.value))
    else if s.game.hand.None? then (s, Err(Refused(NoHand)))
    else
      match Advance(kit, s.game, c)
      case Err(e) => (s, Err(e))
      case Ok((game, applied)) => Conclude(kit, s, c, game, applied)
  }

  /** Version and log move on; then the hand either goes on, under a fresh timer, or is finished. */
  function Conclude(kit: PokerKit, s: Actor, c: MatchCommand, game: Match, applied: AppliedAction)
    : (Actor, Result<CommandResult, ActorError>)
    requires s.game.hand.Some?
  {
    var logged := Logged(s, game, PublicView(s.game.hand.value).street, applied);
    if game.hand.Some? && game.hand.value.Complete() then FinishHand(kit, logged, c, applied)
    else
      (ScheduleActionTimer(logged),
       Ok(CommandResult(c.commandId, applied, Stamped(game, logged.stateVersion), game.status,
                        logged.stateVersion, s.matchId, if s.handId.Some? then s.handId.value else 0,
                        None, QuitAccount(c))))
  }

  // ---------------------------------------------------------------------------------------------
  // The queue loop, cut at its awaits
  // ---------------------------------------------------------------------------------------------

  function Resolve(futures: seq<FutureState>, f: FutureId, outcome: FutureState): seq<FutureState> {
    if f < |futures| && futures[f].Pending? then futures[f := outcome] else futures
  }

  /** What is kept of a command that is no longer pending: its failure for the waiter, or its result for good. */
  function RecordOutcome(s: Actor, next: Queued, outcome: Result<CommandResult, ActorError>): Actor {
    var id := next.command.commandId;
    match outcome
    case Err(e) =>
      s.(inflight := s.inflight - {id}, futures := Resolve(s.futures, next.future, Failed(e)))
    case Ok(result) =>
      s.(inflight := s.inflight - {id}, processed := s.processed[id := Processed(next.command, result)],
         delivering := Some(Delivery(next.future, result)))
  }

  /** Takes the next command, applies it and records the outcome; a result is delivered in a later step. */
  function RunNext(kit: PokerKit, s: Actor): Actor
    requires s.queue != [] && s.delivering.None?
  {
    var (after, outcome) := Apply(kit, s.(queue := s.queue[1..]), s.queue[0].command);
    RecordOutcome(after, s.queue[0], outcome)
  }

  function Deliver(s: Actor): Actor
    requires s.delivering.Some?
  {
    s.(futures := Resolve(s.futures, s.delivering.value.future, Done(s.delivering.value.result)), delivering := None)
  }

  /** A waiter that goes away cancels the future it waits on, whoever else waits there too. */
  function CancelWaiter(s: Actor, f: FutureId): Actor {
    s.(futures := Resolve(s.futures, f, Cancelled))
  }

  /** The fields of the queue loop, which applying a command leaves alone. */
  predicate SameQueues(s: Actor, t: Actor) {
    && t.queue == s.queue && t.inflight == s.inflight && t.processed == s.processed
    && t.futures == s.futures && t.delivering == s.delivering
  }

  lemma FinishKeepsQueue(kit: PokerKit, s: Actor, c: MatchCommand, applied: AppliedAction)
    ensures SameQueues(s, FinishHand(kit, s, c, applied).0)
  {
  }

  lemma ApplyKeepsQueue(kit: PokerKit, s: Actor, c: MatchCommand)
    ensures SameQueues(s, Apply(kit, s, c).0)
  {
    hide FinishHand, Advance, PublicView;
    if s.game.hand.Some? {
      var advanced := Advance(kit, s.game, c);
      if advanced.Ok? {
        var (game, applied) := advanced.value;
        FinishKeepsQueue(kit, Logged(s, game, PublicView(s.game.hand.value).street, applied), c, applied);
      }
    }
  }

  /** The loop run until nothing is waiting. */
  function RunAll(kit: PokerKit, s: Actor): (r: Actor)
    requires s.delivering.None?
    ensures r.queue == [] && r.delivering.None?
    decreases |s.queue|
  {
    if s.queue == [] then s
    else
      ApplyKeepsQueue(kit, s.(queue := s.queue[1..]), s.queue[0].command);
      var taken := RunNext(kit, s);
      RunAll(kit, if taken.delivering.Some? then Deliver(taken) else taken)
  }

  /** One round of the loop: a command taken, and its result delivered if there is one. */
  lemma RunAllStep(kit: PokerKit, s: Actor)
    requires s.delivering.None? && s.queue != []
    ensures var taken := RunNext(kit, s);
            && taken.queue == s.queue[1..]
            && RunAll(kit, s) == RunAll(kit, if taken.delivering.Some? then Deliver(taken) else taken)
  {
    hide Apply;
    ApplyKeepsQueue(kit, s.(queue := s.queue[1..]), s.queue[0].command);
  }
}
