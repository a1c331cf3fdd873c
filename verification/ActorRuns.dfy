/** Whole runs of the actor: every interleaving of submissions, timers, cancellations and queue steps. */
module ActorRuns {
  import opened Prelude
  import opened PokerHand
  import opened MatchState
  import opened ActorState
  import opened ActorApply

  /** Each stretch between two awaits is one event; timers may fire with any identity they were armed with. */
  datatype Event =
    | SubmitCommand(command: MatchCommand)
    | TimerFires(id: CommandId, timer: Timer, source: Source)
    | ScheduleOffline(account: AccountId)
    | CancelOffline(account: AccountId)
    | CancelFuture(future: FutureId)
    | TakeNext
    | DeliverResult

  datatype Applied = Applied(command: MatchCommand, result: CommandResult)

  /**
   * The actor together with what an observer has seen of it: the commands applied so far, the logs of
   * finished hands, the chips lost to quits, and for every future the command it was created for.
   */
  datatype World = World(
    actor: Actor,
    applied: seq<Applied>,
    archived: seq<seq<HandAction>>,
    lost: int,
    owner: seq<MatchCommand>)

  function Submitted(w: World, c: MatchCommand): World {
    var next := Submit(w.actor, c).0;
    w.(actor := next, owner := if |next.futures| > |w.actor.futures| then w.owner + [c] else w.owner)
  }

  function Step(kit: PokerKit, w: World, e: Event): World {
    match e
    case SubmitCommand(c) => Submitted(w, c)
    case TimerFires(id, timer, source) =>
      (match TimeoutCommand(w.actor, id, timer, source)
       case Err(_) => w
       case Ok(c) => Submitted(w, c))
    case ScheduleOffline(account) => w.(actor := ActorState.ScheduleDisconnect(w.actor, account).0)
    case CancelOffline(account) => w.(actor := ActorState.CancelDisconnect(w.actor, account))
    case CancelFuture(f) => w.(actor := CancelWaiter(w.actor, f))
    case TakeNext => if w.actor.queue == [] || w.actor.delivering.Some? then w else TakeStep(kit, w)
    case DeliverResult => if w.actor.delivering.None? then w else w.(actor := Deliver(w.actor))
  }

  function TakeStep(kit: PokerKit, w: World): World
    requires w.actor.queue != [] && w.actor.delivering.None?
  {
    var s := w.actor.(queue := w.actor.queue[1..]);
    var c := w.actor.queue[0].command;
    var next := w.(actor := RunNext(kit, w.actor));
    match Apply(kit, s, c).1
    case Err(_) => next
    case Ok(result) =>
      next.(applied := w.applied + [Applied(c, result)],
            archived := if result.completed.Some? then w.archived + [result.completed.value.actions] else w.archived,
            lost := w.lost + CommandLoss(s, c))
  }

  /** A freshly started actor for a new match. */
  function Opening(kit: PokerKit, matchId: MatchId, game: Match, timeout: Option<int>): World {
    World(Start(kit, NewActor(matchId, game, timeout)).0, [], [], 0, [])
  }

  /** A match between two hands that may be opened. */
  ghost predicate Ready(game: Match) {
    MatchInv(game) && game.hand.None? && game.status.Active?
  }

  /** The i-th state of a run: the freshly opened match, or one event on from the state before. */
  ghost predicate Reached(kit: PokerKit, game: Match, states: seq<World>, events: seq<Event>, i: nat)
    requires i < |states| == |events| + 1
  {
    var w := states[i];
    if i == 0 then w == Opening(kit, w.actor.matchId, game, w.actor.decisionTimeout)
    else w == Step(kit, states[i - 1], events[i - 1])
  }

  /** A run of a match: every state it passes through, from its opening on, one event apart. */
  ghost predicate MatchRun(kit: PokerKit, game: Match, states: seq<World>, events: seq<Event>) {
    && Lawful(kit) && Ready(game)
    && |states| == |events| + 1
    && forall i :: 0 <= i < |states| ==> Reached(kit, game, states, events, i)
  }

  // ---------------------------------------------------------------------------------------------
  // Invariants
  // ---------------------------------------------------------------------------------------------

  /** Queue and in-flight map are two views of the same pending commands; processed ids are others. */
  ghost predicate QueueAgrees(s: Actor) {
    && (forall i :: 0 <= i < |s.queue| ==>
          s.queue[i].command.commandId in s.inflight && s.inflight[s.queue[i].command.commandId] == s.queue[i])
    && (forall i, j :: 0 <= i < j < |s.queue| ==> s.queue[i].command.commandId != s.queue[j].command.commandId)
    && (forall id :: id in s.inflight ==> s.inflight[id] in s.queue && s.inflight[id].command.commandId == id)
    && s.inflight.Keys !! s.processed.Keys
  }

  /** The processed map is exactly the record of applied commands, each id once. */
  ghost predicate Recorded(w: World) {
    var s := w.actor;
    && (forall i :: 0 <= i < |w.applied| ==>
          var a := w.applied[i];
          a.command.commandId in s.processed
          && s.processed[a.command.commandId] == Processed(a.command, a.result))
    && (forall i, j :: 0 <= i < j < |w.applied| ==>
          w.applied[i].command.commandId != w.applied[j].command.commandId)
    && (forall id :: id in s.processed ==>
          exists i :: 0 <= i < |w.applied| && w.applied[i].command.commandId == id)
  }

  /** The k-th applied command took the actor from version k to k + 1, and says so if it named a version. */
  ghost predicate Versioned(w: World) {
    && w.actor.stateVersion == |w.applied|
    && forall i :: 0 <= i < |w.applied| ==>
         && w.applied[i].result.stateVersion == i + 1
         && w.applied[i].result.commandId == w.applied[i].command.commandId
         && (w.applied[i].command.stateVersion.Some? ==> w.applied[i].command.stateVersion.value == i)
  }

  /** A future only ever resolves to the recorded result of the command it was created for. */
  ghost predicate Answered(w: World) {
    var s := w.actor;
    && |w.owner| == |s.futures|
    && (forall i :: 0 <= i < |s.queue| ==>
          s.queue[i].future < |w.owner| && w.owner[s.queue[i].future] == s.queue[i].command)
    && (s.delivering.Some? ==>
          && s.delivering.value.future < |w.owner|
          && HasResult(s, w.owner[s.delivering.value.future], s.delivering.value.result))
    && (forall f :: 0 <= f < |s.futures| && s.futures[f].Done? ==> HasResult(s, w.owner[f], s.futures[f].result))
  }

  predicate HasResult(s: Actor, c: MatchCommand, result: CommandResult) {
    c.commandId in s.processed && s.processed[c.commandId] == Processed(c, result)
  }

  predicate Contiguous(log: seq<HandAction>) {
    forall i :: 0 <= i < |log| ==> log[i].sequenceNo == i + 1
  }

  function Concat(logs: seq<seq<HandAction>>): seq<HandAction> {
    if logs == [] then [] else Concat(logs[..|logs| - 1]) + logs[|logs| - 1]
  }

  /** Hands settled so far: every hand started, less the one in progress. */
  predicate HandsSettled(w: World) {
    |w.archived| == w.actor.game.handNumber - if w.actor.terminal.Some? then 0 else 1
  }

  /** Every action log written so far, in order; a frozen match has its last hand's log already archived. */
  function AllActions(w: World): seq<HandAction> {
    Concat(w.archived) + if w.actor.terminal.Some? then [] else w.actor.handActions
  }

  /** One log entry per applied command, in order, each log numbered from one. */
  ghost predicate Journal(w: World) {
    var log := AllActions(w);
    && |log| == |w.applied|
    && (forall i :: 0 <= i < |log| ==>
          && log[i].stateVersion == i + 1
          && AppliedAction(log[i].accountId, log[i].action, log[i].amount) == w.applied[i].result.applied)
    && Contiguous(w.actor.handActions)
    && (forall k :: 0 <= k < |w.archived| ==> Contiguous(w.archived[k]))
  }

  ghost predicate WorldInv(w: World) {
    && ActorInv(w.actor) && QueueAgrees(w.actor) && Recorded(w) && Versioned(w) && Answered(w) && Journal(w)
  }

  // ---------------------------------------------------------------------------------------------
  // Each event keeps them
  // ---------------------------------------------------------------------------------------------

  /** The game itself did not move: same hand, same version, same history. */
  predicate Unmoved(w: World, v: World) {
    && v.actor.game == w.actor.game && v.actor.stateVersion == w.actor.stateVersion
    && v.actor.handId == w.actor.handId && v.actor.terminal == w.actor.terminal
    && v.actor.processed == w.actor.processed && v.actor.matchId == w.actor.matchId
    && v.applied == w.applied && v.archived == w.archived && v.lost == w.lost
  }

  /** Nothing an actor's invariant looks at has changed. */
  lemma ActorFrame(s: Actor, t: Actor)
    requires ActorInv(s)
    requires t.game == s.game && t.handId == s.handId && t.terminal == s.terminal
             && t.stateVersion == s.stateVersion && t.handStartingStacks == s.handStartingStacks
             && t.decisionTimeout == s.decisionTimeout
             && t.actionTimer == s.actionTimer && t.disconnectTimer == s.disconnectTimer
    ensures ActorInv(t)
  {
  }

  lemma JournalFrame(w: World, v: World)
    requires Journal(w) && v.applied == w.applied && v.archived == w.archived
             && v.actor.terminal == w.actor.terminal && v.actor.handActions == w.actor.handActions
    ensures Journal(v)
  {
    assert AllActions(v) == AllActions(w);
  }

  /** The record of applied commands, seen through processed ids and versions. */
  lemma RecordFrame(w: World, v: World)
    requires Recorded(w) && Versioned(w) && v.applied == w.applied
             && v.actor.processed == w.actor.processed && v.actor.stateVersion == w.actor.stateVersion
    ensures Recorded(v) && Versioned(v)
  {
  }

  lemma SubmitAnswered(w: World, c: MatchCommand)
    requires Answered(w)
    ensures Answered(Submitted(w, c))
  {
  }

  lemma ResolveAnswered(w: World, v: World, f: FutureId, outcome: FutureState)
    requires Answered(w)
    requires outcome.Done? ==> f < |w.owner| && HasResult(w.actor, w.owner[f], outcome.result)
    requires v.owner == w.owner && v.actor.processed == w.actor.processed
    requires v.actor.futures == Resolve(w.actor.futures, f, outcome)
    requires v.actor.queue == w.actor.queue || (w.actor.queue != [] && v.actor.queue == w.actor.queue[1..])
    requires v.actor.delivering == w.actor.delivering || v.actor.delivering.None?
    ensures Answered(v)
  {
  }

  lemma RecordAnswered(w: World, v: World)
    requires Answered(w) && w.actor.queue != [] && w.actor.delivering.None?
    requires var next := w.actor.queue[0];
             && next.command.commandId !in w.actor.processed
             && v.actor.delivering.Some? && v.actor.delivering.value.future == next.future
             && v.actor.processed == w.actor.processed[
                  next.command.commandId := Processed(next.command, v.actor.delivering.value.result)]
    requires v.owner == w.owner && v.actor.futures == w.actor.futures && v.actor.queue == w.actor.queue[1..]
    ensures Answered(v)
  {
  }

  lemma VersionedGrows(w: World, v: World, a: Applied)
    requires Versioned(w) && v.applied == w.applied + [a]
    requires v.actor.stateVersion == w.actor.stateVersion + 1 == a.result.stateVersion
    requires a.result.commandId == a.command.commandId
    requires a.command.stateVersion.Some? ==> a.command.stateVersion.value == w.actor.stateVersion
    ensures Versioned(v)
  {
  }

  lemma SubmitPending(s: Actor, c: MatchCommand)
    requires QueueAgrees(s)
    ensures QueueAgrees(Submit(s, c).0)
  {
    var t := Submit(s, c).0;
    if t != s {
      var queued := Queued(c, |s.futures|);
      assert t.queue == s.queue + [queued];
      forall id | id in t.inflight
        ensures t.inflight[id] in t.queue && t.inflight[id].command.commandId == id
      {
        if id != c.commandId {
          assert s.inflight[id] in s.queue;
        } else {
          assert t.queue[|s.queue|] == queued;
        }
      }
    }
  }

  lemma SubmittedInv(w: World, c: MatchCommand)
    requires WorldInv(w)
    ensures WorldInv(Submitted(w, c))
    ensures Unmoved(w, Submitted(w, c))
  {
    hide ActorInv, Journal, QueueAgrees, Recorded, Versioned, Answered;
    var v := Submitted(w, c);
    ActorFrame(w.actor, v.actor);
    JournalFrame(w, v);
    RecordFrame(w, v);
    SubmitPending(w.actor, c);
    SubmitAnswered(w, c);
  }

  lemma PendingFrame(s: Actor, t: Actor)
    requires QueueAgrees(s) && t.queue == s.queue && t.inflight == s.inflight && t.processed == s.processed
    ensures QueueAgrees(t)
  {
  }

  /** Resolving one future, or clearing the delivery that resolved it, leaves everything else alone. */
  lemma ResolvedInv(w: World, v: World, f: FutureId, outcome: FutureState)
    requires WorldInv(w)
    requires outcome.Done? ==> f < |w.owner| && HasResult(w.actor, w.owner[f], outcome.result)
    requires v == w.(actor := v.actor)
    requires v.actor == w.actor.(futures := Resolve(w.actor.futures, f, outcome), delivering := v.actor.delivering)
    requires v.actor.delivering == w.actor.delivering || v.actor.delivering.None?
    ensures WorldInv(v) && Unmoved(w, v)
  {
    hide ActorInv, Journal, QueueAgrees, Recorded, Versioned, Answered;
    ActorFrame(w.actor, v.actor);
    JournalFrame(w, v);
    RecordFrame(w, v);
    PendingFrame(w.actor, v.actor);
    ResolveAnswered(w, v, f, outcome);
  }

  lemma OfflineTimers(s: Actor, account: AccountId)
    requires ActorInv(s)
    ensures ActorInv(ActorState.ScheduleDisconnect(s, account).0) && ActorInv(ActorState.CancelDisconnect(s, account))
  {
  }

  lemma TimersInv(w: World, v: World)
    requires WorldInv(w) && ActorInv(v.actor) && v == w.(actor := v.actor)
    requires v.actor == w.actor.(disconnectTimer := v.actor.disconnectTimer)
    ensures WorldInv(v) && Unmoved(w, v)
  {
    hide ActorInv, Journal, QueueAgrees, Recorded, Versioned, Answered;
    JournalFrame(w, v);
    RecordFrame(w, v);
    PendingFrame(w.actor, v.actor);
    ResolveAnswered(w, v, |w.actor.futures|, Cancelled);
  }

  /** Dropping the head of the queue from both views. */
  lemma DequeuedPending(s: Actor, t: Actor)
    requires QueueAgrees(s) && s.queue != []
    requires t.queue == s.queue[1..] && t.inflight == s.inflight - {s.queue[0].command.commandId}
    requires t.processed.Keys <= s.processed.Keys + {s.queue[0].command.commandId}
    ensures QueueAgrees(t)
  {
    forall id | id in t.inflight
      ensures t.inflight[id] in t.queue && t.inflight[id].command.commandId == id
    {
      var i :| 0 <= i < |s.queue| && s.queue[i] == s.inflight[id];
      assert i > 0 && t.queue[i - 1] == s.queue[i];
    }
  }

  lemma RefusedInv(kit: PokerKit, w: World)
    requires Lawful(kit) && WorldInv(w) && w.actor.queue != [] && w.actor.delivering.None?
    requires Apply(kit, w.actor.(queue := w.actor.queue[1..]), w.actor.queue[0].command).1.Err?
    ensures WorldInv(TakeStep(kit, w)) && Unmoved(w, TakeStep(kit, w))
  {
    hide ActorInv, Journal, QueueAgrees, Recorded, Versioned, Answered, Lawful, Apply;
    var s := w.actor.(queue := w.actor.queue[1..]);
    var v := TakeStep(kit, w);
    var e := Apply(kit, s, w.actor.queue[0].command).1.error;
    ActorFrame(w.actor, s);
    ApplyAllOrNothing(kit, s, w.actor.queue[0].command);
    ActorFrame(s, v.actor);
    DequeuedPending(w.actor, v.actor);
    RecordFrame(w, v);
    JournalFrame(w, v);
    ResolveAnswered(w, v, w.actor.queue[0].future, Failed(e));
  }

  lemma JournalGrows(w: World, v: World, entry: HandAction, a: Applied)
    requires Journal(w) && w.actor.terminal.None? && Versioned(w)
    requires entry.stateVersion == |w.applied| + 1 && entry.sequenceNo == |w.actor.handActions| + 1
    requires AppliedAction(entry.accountId, entry.action, entry.amount) == a.result.applied
    requires v.applied == w.applied + [a]
    requires var log := w.actor.handActions + [entry];
             || (v.archived == w.archived && v.actor.terminal.None? && v.actor.handActions == log)
             || (v.archived == w.archived + [log]
                 && v.actor.handActions == if v.actor.terminal.Some? then log else [])
    ensures Journal(v)
  {
    assert Contiguous(w.actor.handActions + [entry]);
    ActionsGrow(w, v, entry);
    hide AllActions;
  }

  lemma ActionsGrow(w: World, v: World, entry: HandAction)
    requires w.actor.terminal.None?
    requires var log := w.actor.handActions + [entry];
             || (v.archived == w.archived && v.actor.terminal.None? && v.actor.handActions == log)
             || (v.archived == w.archived + [log]
                 && v.actor.handActions == if v.actor.terminal.Some? then log else [])
    ensures AllActions(v) == AllActions(w) + [entry]
  {
    if v.archived != w.archived {
      assert v.archived[..|v.archived| - 1] == w.archived;
    }
  }

  lemma NewId(w: World, a: Applied)
    requires Recorded(w) && a.command.commandId !in w.actor.processed
    ensures forall i :: 0 <= i < |w.applied| ==> w.applied[i].command.commandId != a.command.commandId
  {
    forall i | 0 <= i < |w.applied| ensures w.applied[i].command.commandId != a.command.commandId {
      assert w.applied[i].command.commandId in w.actor.processed;
    }
  }

  lemma FoundIn(applied: seq<Applied>, a: Applied, id: CommandId)
    requires id == a.command.commandId || exists i :: 0 <= i < |applied| && applied[i].command.commandId == id
    ensures exists i :: 0 <= i < |applied + [a]| && (applied + [a])[i].command.commandId == id
  {
    if id == a.command.commandId {
      assert (applied + [a])[|applied|] == a;
    } else {
      var i :| 0 <= i < |applied| && applied[i].command.commandId == id;
      assert (applied + [a])[i] == applied[i];
    }
  }

  lemma RecordedGrows(w: World, v: World, a: Applied)
    requires Recorded(w) && a.command.commandId !in w.actor.processed
    requires v.applied == w.applied + [a]
    requires v.actor.processed == w.actor.processed[a.command.commandId := Processed(a.command, a.result)]
    ensures Recorded(v)
  {
    NewId(w, a);
    forall id | id in v.actor.processed
      ensures exists i :: 0 <= i < |v.applied| && v.applied[i].command.commandId == id
    {
      FoundIn(w.applied, a, id);
    }
  }

  lemma AcceptedInv(kit: PokerKit, w: World)
    requires Lawful(kit) && WorldInv(w) && w.actor.queue != [] && w.actor.delivering.None?
    requires Apply(kit, w.actor.(queue := w.actor.queue[1..]), w.actor.queue[0].command).1.Ok?
    ensures WorldInv(TakeStep(kit, w))
    ensures TakeStep(kit, w).applied == w.applied + [TakeStep(kit, w).applied[|w.applied|]]
    ensures TotalChips(TakeStep(kit, w).actor.game) + TakeStep(kit, w).lost == TotalChips(w.actor.game) + w.lost
    ensures TakeStep(kit, w).lost == w.lost + CommandLoss(w.actor, w.actor.queue[0].command)
    ensures HandsSettled(w) ==> HandsSettled(TakeStep(kit, w))
    ensures TakeStep(kit, w).actor.game.playerIds == w.actor.game.playerIds
    ensures TakeStep(kit, w).actor.game.rules == w.actor.game.rules
    ensures TakeStep(kit, w).actor.matchId == w.actor.matchId
    ensures TakeStep(kit, w).actor.stateVersion == w.actor.stateVersion + 1 && w.actor.terminal.None?
    ensures forall account ::
              StackOf(w.actor.game.stacks, account) <= 0 ==> StackOf(TakeStep(kit, w).actor.game.stacks, account) == 0
  {
    hide ActorInv, Journal, QueueAgrees, Recorded, Versioned, Answered, Lawful, Apply, TotalChips, StackOf;
    var c := w.actor.queue[0].command;
    var s := w.actor.(queue := w.actor.queue[1..]);
    var v := TakeStep(kit, w);
    ActorFrame(w.actor, s);
    ApplyAllOrNothing(kit, s, c);
    var (t, r) := Apply(kit, s, c);
    ActorFrame(t, v.actor);
    var street := StreetOnShow(s.game);
    var a := Applied(c, r.value);
    assert v.applied == w.applied + [a];
    FreshHead(w.actor);
    HandIds(s);
    HandIds(t);
    DequeuedPending(w.actor, v.actor);
    RecordedGrows(w, v, a);
    VersionedGrows(w, v, a);
    RecordAnswered(w, v);
    JournalGrows(w, v, LogEntry(s, street, r.value.applied), a);
  }

  lemma FreshHead(s: Actor)
    requires QueueAgrees(s) && s.queue != []
    ensures s.queue[0].command.commandId !in s.processed
  {
  }

  lemma DeliveredAnswer(w: World)
    requires Answered(w) && w.actor.delivering.Some?
    ensures var d := w.actor.delivering.value;
            d.future < |w.owner| && HasResult(w.actor, w.owner[d.future], d.result)
  {
  }

  lemma StepInv(kit: PokerKit, w: World, e: Event)
    requires Lawful(kit) && WorldInv(w)
    ensures WorldInv(Step(kit, w, e))
  {
    hide ActorInv, Journal, Lawful, Apply, QueueAgrees, Recorded, Versioned, Answered;
    match e
    case SubmitCommand(c) => SubmittedInv(w, c);
    case TimerFires(id, timer, source) =>
      var made := TimeoutCommand(w.actor, id, timer, source);
      if made.Ok? {
        SubmittedInv(w, made.value);
      }
    case ScheduleOffline(account) =>
      OfflineTimers(w.actor, account);
      TimersInv(w, Step(kit, w, e));
    case CancelOffline(account) =>
      OfflineTimers(w.actor, account);
      TimersInv(w, Step(kit, w, e));
    case CancelFuture(f) => ResolvedInv(w, Step(kit, w, e), f, Cancelled);
    case TakeNext =>
      if w.actor.queue != [] && w.actor.delivering.None? {
        if Apply(kit, w.actor.(queue := w.actor.queue[1..]), w.actor.queue[0].command).1.Ok? {
          AcceptedInv(kit, w);
        } else {
          RefusedInv(kit, w);
        }
      }
    case DeliverResult =>
      if w.actor.delivering.Some? {
        DeliveredAnswer(w);
        var d := w.actor.delivering.value;
        ResolvedInv(w, Step(kit, w, e), d.future, Done(d.result));
      }
  }

  lemma Opened(kit: PokerKit, game: Match, states: seq<World>, events: seq<Event>)
    requires MatchRun(kit, game, states, events)
    ensures |states| == |events| + 1 && Lawful(kit) && Ready(game)
    ensures states[0] == Opening(kit, states[0].actor.matchId, game, states[0].actor.decisionTimeout)
  {
    assert Reached(kit, game, states, events, 0);
    hide Opening, Lawful, Ready;
  }

  lemma OpeningInv(kit: PokerKit, game: Match, states: seq<World>, events: seq<Event>)
    requires MatchRun(kit, game, states, events)
    ensures |states| == |events| + 1 && Lawful(kit) && WorldInv(states[0])
    ensures var w := states[0];
            && w.lost == 0 && w.archived == [] && w.actor.terminal.None?
            && TotalChips(w.actor.game) == TotalChips(game)
            && w.actor.game.rules == game.rules && w.actor.game.playerIds == game.playerIds
            && w.actor.game.handNumber == game.handNumber + 1
  {
    hide Step, Start, TotalChips, Lawful, MatchInv, MatchRun, ActorInv, WorldInv;
    Opened(kit, game, states, events);
    var matchId, timeout := states[0].actor.matchId, states[0].actor.decisionTimeout;
    StartInv(kit, matchId, game, timeout);
    OpeningHand(kit, matchId, game, timeout);
    EmptyWorld(states[0]);
  }

  lemma EmptyWorld(w: World)
    requires ActorInv(w.actor) && SameProtocol(NewActor(w.actor.matchId, w.actor.game, w.actor.decisionTimeout), w.actor)
    requires w.actor.stateVersion == 0 && w.actor.handActions == [] && w.actor.terminal.None?
    requires w == World(w.actor, [], [], 0, [])
    ensures WorldInv(w)
  {
    hide ActorInv;
    assert Concat([]) == [];
  }

  lemma OpeningHand(kit: PokerKit, matchId: MatchId, game: Match, timeout: Option<int>)
    requires Lawful(kit) && Ready(game)
    ensures var s := Opening(kit, matchId, game, timeout).actor;
            && s.terminal.None? && s.game.rules == game.rules && s.game.playerIds == game.playerIds
            && s.game.handNumber == game.handNumber + 1
  {
    StartHandSucceeds(kit, game);
  }

  lemma RunLength(kit: PokerKit, game: Match, states: seq<World>, events: seq<Event>)
    requires MatchRun(kit, game, states, events)
    ensures |states| == |events| + 1
  {
  }

  lemma StepAt(kit: PokerKit, game: Match, states: seq<World>, events: seq<Event>, i: nat)
    requires MatchRun(kit, game, states, events) && i < |events|
    ensures |states| == |events| + 1 && states[i + 1] == Step(kit, states[i], events[i])
  {
    hide Step;
    assert Reached(kit, game, states, events, i + 1);
  }

  lemma {:induction false} RunInv(kit: PokerKit, game: Match, states: seq<World>, events: seq<Event>, i: nat)
    requires MatchRun(kit, game, states, events) && i < |states|
    ensures WorldInv(states[i]) && Lawful(kit)
  {
    hide WorldInv, Step;
    if i == 0 {
      OpeningInv(kit, game, states, events);
    } else {
      RunInv(kit, game, states, events, i - 1);
      StepAt(kit, game, states, events, i - 1);
      StepInv(kit, states[i - 1], events[i - 1]);
    }
  }
}
