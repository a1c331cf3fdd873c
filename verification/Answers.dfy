/** Every submitted command is answered: in order, once, and with what became of it. */
module Answers {
  import opened Prelude
  import opened PokerHand
  import opened MatchState
  import opened ActorState
  import opened ActorApply
  import opened ActorRuns
  import opened ActorTheorems

  /** The future belongs to a command that is still queued. */
  predicate Waits(w: World, f: FutureId) {
    exists k :: 0 <= k < |w.actor.queue| && w.actor.queue[k].future == f
  }

  /** The future belongs to the command whose result is on its way. */
  predicate OnItsWay(w: World, f: FutureId) {
    w.actor.delivering.Some? && w.actor.delivering.value.future == f
  }

  predicate Unanswered(s: FutureState) {
    s.Pending? || s.Cancelled?
  }

  /** Queued commands come in the order of their futures, behind the one on its way. */
  predicate InOrder(w: World) {
    && (forall k :: 0 <= k < |w.actor.queue| ==> w.actor.queue[k].future < |w.actor.futures|)
    && (forall k, l :: 0 <= k < l < |w.actor.queue| ==> w.actor.queue[k].future < w.actor.queue[l].future)
    && (w.actor.delivering.Some? ==>
          && w.actor.delivering.value.future < |w.actor.futures|
          && forall k :: 0 <= k < |w.actor.queue| ==> w.actor.delivering.value.future < w.actor.queue[k].future)
  }

  /** Nobody waits for a command that is gone, and nobody is answered before it is met. */
  ghost predicate Tended(w: World) {
    && InOrder(w)
    && (forall f :: 0 <= f < |w.actor.futures| && w.actor.futures[f].Pending? ==> Waits(w, f) || OnItsWay(w, f))
    && (forall f :: 0 <= f < |w.actor.futures| && (Waits(w, f) || OnItsWay(w, f)) ==> Unanswered(w.actor.futures[f]))
  }

  lemma SubmitTended(w: World, c: MatchCommand)
    requires Tended(w)
    ensures Tended(Submitted(w, c))
    ensures w.actor.futures <= Submitted(w, c).actor.futures
    ensures forall k :: |w.actor.queue| <= k < |Submitted(w, c).actor.queue| ==>
              Submitted(w, c).actor.queue[k].future >= |w.actor.futures|
  {
    var v := Submitted(w, c);
    assert v.actor.queue == w.actor.queue || v.actor.queue == w.actor.queue + [Queued(c, |w.actor.futures|)];
    forall f | Waits(w, f) ensures Waits(v, f) {
      var k :| 0 <= k < |w.actor.queue| && w.actor.queue[k].future == f;
      assert v.actor.queue[k].future == f;
    }
    if v.actor.queue != w.actor.queue {
      assert v.actor.queue[|w.actor.queue|].future == |w.actor.futures|;
    }
  }

  /** What taking the head of the queue does to the futures. */
  predicate Met(w: World, v: World) {
    && w.actor.queue != [] && w.actor.delivering.None? && v.actor.queue == w.actor.queue[1..]
    && |v.actor.futures| == |w.actor.futures|
    && (v.actor.delivering.Some? ==>
          v.actor.futures == w.actor.futures && v.actor.delivering.value.future == w.actor.queue[0].future)
    && (v.actor.delivering.None? ==>
          forall f :: 0 <= f < |w.actor.futures| ==>
            if f == w.actor.queue[0].future && w.actor.futures[f].Pending? then v.actor.futures[f].Failed?
            else v.actor.futures[f] == w.actor.futures[f])
  }

  lemma TakeMeets(kit: PokerKit, w: World)
    requires w.actor.queue != [] && w.actor.delivering.None?
    requires w.actor.queue[0].future < |w.actor.futures|
    ensures Met(w, TakeStep(kit, w)) && TakeStep(kit, w).owner == w.owner
  {
    ApplyKeepsQueue(kit, w.actor.(queue := w.actor.queue[1..]), w.actor.queue[0].command);
    hide Apply;
  }

  lemma MetTended(w: World, v: World)
    requires Tended(w) && Met(w, v)
    ensures Tended(v)
  {
    forall f | Waits(w, f) ensures Waits(v, f) || f == w.actor.queue[0].future {
      var k :| 0 <= k < |w.actor.queue| && w.actor.queue[k].future == f;
      assert k > 0 ==> v.actor.queue[k - 1].future == f;
    }
    forall f | Waits(v, f) ensures Waits(w, f) && f != w.actor.queue[0].future {
      var k :| 0 <= k < |v.actor.queue| && v.actor.queue[k].future == f;
      assert w.actor.queue[k + 1].future == f;
    }
  }

  lemma CancelTended(w: World, f: FutureId)
    requires Tended(w)
    ensures Tended(w.(actor := CancelWaiter(w.actor, f)))
  {
    var v := w.(actor := CancelWaiter(w.actor, f));
    assert forall g :: Waits(v, g) == Waits(w, g) && OnItsWay(v, g) == OnItsWay(w, g);
  }

  lemma DeliverTended(w: World)
    requires Tended(w) && w.actor.delivering.Some?
    ensures Tended(w.(actor := Deliver(w.actor)))
  {
    var v := w.(actor := Deliver(w.actor));
    assert forall g :: Waits(v, g) == Waits(w, g);
  }

  lemma SameTended(w: World, v: World)
    requires Tended(w) && v.actor.queue == w.actor.queue && v.actor.futures == w.actor.futures
    requires v.actor.delivering == w.actor.delivering
    ensures Tended(v)
  {
    assert forall g :: Waits(v, g) == Waits(w, g) && OnItsWay(v, g) == OnItsWay(w, g);
  }

  lemma HeadInRange(w: World)
    requires Tended(w) && w.actor.queue != []
    ensures w.actor.queue[0].future < |w.actor.futures|
  {
  }

  lemma StepTended(kit: PokerKit, w: World, e: Event)
    requires Tended(w)
    ensures Tended(Step(kit, w, e))
  {
    hide Tended, Apply, TakeStep, Deliver, CancelWaiter, Met;
    match e
    case SubmitCommand(c) => SubmitTended(w, c);
    case TimerFires(id, timer, source) =>
      var made := TimeoutCommand(w.actor, id, timer, source);
      if made.Ok? {
        SubmitTended(w, made.value);
      }
    case ScheduleOffline(account) => SameTended(w, Step(kit, w, e));
    case CancelOffline(account) => SameTended(w, Step(kit, w, e));
    case CancelFuture(f) => CancelTended(w, f);
    case TakeNext =>
      if w.actor.queue != [] && w.actor.delivering.None? {
        HeadInRange(w);
        TakeMeets(kit, w);
        MetTended(w, TakeStep(kit, w));
      }
    case DeliverResult =>
      if w.actor.delivering.Some? {
        DeliverTended(w);
      }
  }

  lemma OpeningTended(kit: PokerKit, game: Match, states: seq<World>, events: seq<Event>)
    requires MatchRun(kit, game, states, events)
    ensures |states| > 0 && Tended(states[0])
  {
    Opened(kit, game, states, events);
    hide StartHand, MatchRun, Lawful, Ready;
  }

  lemma {:induction false} RunTended(kit: PokerKit, game: Match, states: seq<World>, events: seq<Event>, i: nat)
    requires MatchRun(kit, game, states, events) && i < |states|
    ensures Tended(states[i])
  {
    hide Tended, Step, MatchRun;
    if i == 0 {
      OpeningTended(kit, game, states, events);
    } else {
      RunLength(kit, game, states, events);
      RunTended(kit, game, states, events, i - 1);
      StepAt(kit, game, states, events, i - 1);
      StepTended(kit, states[i - 1], events[i - 1]);
    }
  }

  /** Whenever the actor has nothing left to do, nobody is left waiting. */
  lemma NobodyLeftWaiting(kit: PokerKit, game: Match, states: seq<World>, events: seq<Event>, i: nat, f: FutureId)
    requires MatchRun(kit, game, states, events) && i < |states| && f < |states[i].actor.futures|
    requires states[i].actor.queue == [] && states[i].actor.delivering.None?
    ensures !states[i].actor.futures[f].Pending?
  {
    RunTended(kit, game, states, events, i);
    hide MatchRun;
  }

  // ---------------------------------------------------------------------------------------------
  // One answer, and for good
  // ---------------------------------------------------------------------------------------------

  /** The step resolved no future but the cancelled, the refused or the delivered one, and none twice. */
  predicate Resolves(w: World, v: World, e: Event) {
    && |w.actor.futures| <= |v.actor.futures| && w.owner <= v.owner
    && (forall f :: 0 <= f < |w.actor.futures| ==>
          v.actor.futures[f] == w.actor.futures[f] || Resolved(w, v.actor.futures[f], e, f))
    && (forall f :: |w.actor.futures| <= f < |v.actor.futures| ==> v.actor.futures[f].Pending?)
  }

  predicate Resolved(w: World, outcome: FutureState, e: Event, f: FutureId)
    requires f < |w.actor.futures|
  {
    && w.actor.futures[f].Pending?
    && (|| (e == CancelFuture(f) && outcome.Cancelled?)
        || (e.TakeNext? && outcome.Failed? && w.actor.queue != [] && w.actor.queue[0].future == f)
        || (e.DeliverResult? && OnItsWay(w, f) && outcome == Done(w.actor.delivering.value.result)))
  }

  lemma OwnersMatch(w: World)
    requires WorldInv(w)
    ensures |w.owner| == |w.actor.futures|
  {
  }

  lemma SubmitResolves(w: World, c: MatchCommand, e: Event)
    ensures Resolves(w, Submitted(w, c), e)
  {
  }

  lemma StepResolves(kit: PokerKit, w: World, e: Event)
    requires Tended(w)
    ensures Resolves(w, Step(kit, w, e), e)
  {
    hide Tended, Apply, TakeStep, TimeoutCommand, CurrentSnapshot;
    match e
    case SubmitCommand(c) => SubmitResolves(w, c, e);
    case TimerFires(id, timer, source) =>
      hide Resolved;
      var made := TimeoutCommand(w.actor, id, timer, source);
      if made.Ok? {
        SubmitResolves(w, made.value, e);
      }
    case ScheduleOffline(account) => hide Resolved;
    case CancelOffline(account) => hide Resolved;
    case CancelFuture(f) =>
    case TakeNext =>
      if w.actor.queue != [] && w.actor.delivering.None? {
        HeadInRange(w);
        TakeMeets(kit, w);
      }
    case DeliverResult =>
  }

  lemma {:induction false} AnswersStay(kit: PokerKit, game: Match, states: seq<World>, events: seq<Event>, i: nat, j: nat,
                                       f: FutureId)
    requires MatchRun(kit, game, states, events) && i <= j < |states| && f < |states[i].actor.futures|
    ensures f < |states[j].actor.futures| && |states[j].owner| == |states[j].actor.futures|
    ensures f < |states[i].owner| && states[j].owner[f] == states[i].owner[f]
    ensures !states[i].actor.futures[f].Pending? ==> states[j].actor.futures[f] == states[i].actor.futures[f]
    decreases j
  {
    hide MatchRun, Step, Tended, WorldInv, Lawful;
    RunLength(kit, game, states, events);
    RunInv(kit, game, states, events, j);
    OwnersMatch(states[j]);
    if i < j {
      AnswersStay(kit, game, states, events, i, j - 1, f);
      RunInv(kit, game, states, events, j - 1);
      RunTended(kit, game, states, events, j - 1);
      StepAt(kit, game, states, events, j - 1);
      StepResolves(kit, states[j - 1], events[j - 1]);
    }
  }

  /** Only a waiter who goes away cancels. */
  lemma {:induction false} CancelledByWaiter(kit: PokerKit, game: Match, states: seq<World>, events: seq<Event>, j: nat,
                                             f: FutureId)
    requires MatchRun(kit, game, states, events) && j < |states| && f < |states[j].actor.futures|
    requires states[j].actor.futures[f].Cancelled?
    ensures exists k :: 0 <= k < j && k < |events| && events[k] == CancelFuture(f)
    decreases j
  {
    hide MatchRun, Step, Tended, WorldInv, Lawful;
    if j == 0 {
      Opened(kit, game, states, events);
      NoFutures(kit, states[0].actor.matchId, game, states[0].actor.decisionTimeout);
    } else {
      RunLength(kit, game, states, events);
      RunInv(kit, game, states, events, j - 1);
      RunTended(kit, game, states, events, j - 1);
      StepAt(kit, game, states, events, j - 1);
      StepResolves(kit, states[j - 1], events[j - 1]);
      if f < |states[j - 1].actor.futures| && states[j - 1].actor.futures[f].Cancelled? {
        CancelledByWaiter(kit, game, states, events, j - 1, f);
      } else {
        assert events[j - 1] == CancelFuture(f);
      }
    }
  }

  lemma NoFutures(kit: PokerKit, matchId: MatchId, game: Match, timeout: Option<int>)
    ensures Opening(kit, matchId, game, timeout).actor.futures == []
  {
    hide StartHand;
  }

  // ---------------------------------------------------------------------------------------------
  // The answer to a command
  // ---------------------------------------------------------------------------------------------

  /** The event takes the command of this future off the queue. */
  predicate Taken(w: World, e: Event, f: FutureId) {
    e.TakeNext? && w.actor.delivering.None? && w.actor.queue != [] && w.actor.queue[0].future == f
  }

  /** The command was taken: everything still queued came after it. */
  predicate Behind(w: World, f: FutureId) {
    f < |w.actor.futures| && forall k :: 0 <= k < |w.actor.queue| ==> f < w.actor.queue[k].future
  }

  /** The result is on its way to those who still wait, or has reached them. */
  predicate Granted(w: World, f: FutureId, result: CommandResult) {
    && Behind(w, f)
    && if OnItsWay(w, f) then w.actor.delivering.value.result == result && Unanswered(w.actor.futures[f])
       else w.actor.futures[f] == Done(result) || w.actor.futures[f] == Cancelled
  }

  predicate Denied(w: World, f: FutureId, error: ActorError) {
    Behind(w, f) && !OnItsWay(w, f) && (w.actor.futures[f] == Failed(error) || w.actor.futures[f] == Cancelled)
  }

  lemma TakenOutcome(kit: PokerKit, w: World)
    requires Tended(w) && w.actor.queue != [] && w.actor.delivering.None?
    ensures var v, head := TakeStep(kit, w), w.actor.queue[0];
            match Apply(kit, w.actor.(queue := w.actor.queue[1..]), head.command).1
            case Ok(result) => Granted(v, head.future, result) && v.applied == w.applied + [Applied(head.command, result)]
            case Err(e) => Denied(v, head.future, e) && v.applied == w.applied
  {
    var head := w.actor.queue[0];
    assert Waits(w, head.future) && !OnItsWay(w, head.future);
    ApplyKeepsQueue(kit, w.actor.(queue := w.actor.queue[1..]), head.command);
    hide Apply;
  }

  lemma SubmitBehind(w: World, c: MatchCommand, f: FutureId)
    requires Behind(w, f)
    ensures var v := Submitted(w, c);
            Behind(v, f) && v.actor.futures[f] == w.actor.futures[f] && v.actor.delivering == w.actor.delivering
  {
  }

  lemma TakeBehind(kit: PokerKit, w: World, f: FutureId)
    requires Tended(w) && Behind(w, f) && w.actor.queue != [] && w.actor.delivering.None?
    ensures var v := TakeStep(kit, w);
            Behind(v, f) && v.actor.futures[f] == w.actor.futures[f] && !OnItsWay(v, f)
  {
    HeadInRange(w);
    TakeMeets(kit, w);
    hide TakeStep, Tended;
  }

  lemma StepFate(kit: PokerKit, w: World, e: Event, f: FutureId)
    requires Tended(w) && Behind(w, f)
    ensures Behind(Step(kit, w, e), f)
    ensures forall result :: Granted(w, f, result) ==> Granted(Step(kit, w, e), f, result)
    ensures forall error :: Denied(w, f, error) ==> Denied(Step(kit, w, e), f, error)
  {
    hide Tended, TakeStep, TimeoutCommand, Submitted;
    match e
    case SubmitCommand(c) => SubmitBehind(w, c, f);
    case TimerFires(id, timer, source) =>
      var made := TimeoutCommand(w.actor, id, timer, source);
      if made.Ok? {
        SubmitBehind(w, made.value, f);
      }
    case ScheduleOffline(account) => hide CurrentSnapshot;
    case CancelOffline(account) =>
    case CancelFuture(g) =>
    case TakeNext =>
      if w.actor.queue != [] && w.actor.delivering.None? {
        TakeBehind(kit, w, f);
      }
    case DeliverResult =>
  }

  lemma {:induction false} FateHolds(kit: PokerKit, game: Match, states: seq<World>, events: seq<Event>, i: nat, j: nat,
                                     f: FutureId)
    requires MatchRun(kit, game, states, events) && i <= j < |states| && Behind(states[i], f)
    ensures Behind(states[j], f)
    ensures forall result :: Granted(states[i], f, result) ==> Granted(states[j], f, result)
    ensures forall error :: Denied(states[i], f, error) ==> Denied(states[j], f, error)
    decreases j
  {
    hide MatchRun, Step, Tended, Granted, Denied, Behind;
    if i < j {
      RunLength(kit, game, states, events);
      FateHolds(kit, game, states, events, i, j - 1, f);
      RunTended(kit, game, states, events, j - 1);
      StepAt(kit, game, states, events, j - 1);
      StepFate(kit, states[j - 1], events[j - 1], f);
    }
  }

  /** One command, the same at both ends: taken off the queue in one step and applied or refused there. */
  lemma TakenFate(kit: PokerKit, game: Match, states: seq<World>, events: seq<Event>, i: nat, f: FutureId)
    requires MatchRun(kit, game, states, events) && i < |events| && |states| == |events| + 1
    requires Taken(states[i], events[i], f)
    ensures f < |states[i].actor.futures| && f < |states[i].owner|
    ensures states[i].owner[f] == states[i].actor.queue[0].command
    ensures var w, v := states[i], states[i + 1];
            match Apply(kit, w.actor.(queue := w.actor.queue[1..]), w.owner[f]).1
            case Ok(result) => Granted(v, f, result) && v.applied == w.applied + [Applied(w.owner[f], result)]
            case Err(e) => Denied(v, f, e) && v.applied == w.applied
  {
    hide MatchRun, Tended, Granted, Denied, Apply, TakeStep, Lawful;
    RunTended(kit, game, states, events, i);
    RunInv(kit, game, states, events, i);
    HeadOwned(states[i]);
    hide WorldInv;
    StepAt(kit, game, states, events, i);
    TakenOutcome(kit, states[i]);
  }

  lemma HeadOwned(w: World)
    requires WorldInv(w) && w.actor.queue != []
    ensures w.actor.queue[0].future < |w.owner| == |w.actor.futures|
    ensures w.owner[w.actor.queue[0].future] == w.actor.queue[0].command
  {
  }

  /**
   * Once a command has been taken and nothing of it is on its way, whoever waits for it has the answer: the
   * result it was recorded as applied with, or the reason it was refused for, unless a waiter cancelled it.
   */
  lemma TakenIsAnswered(kit: PokerKit, game: Match, states: seq<World>, events: seq<Event>, i: nat, j: nat, f: FutureId)
    requires MatchRun(kit, game, states, events) && i < j <= |events| && |states| == |events| + 1
    requires Taken(states[i], events[i], f) && !OnItsWay(states[j], f)
    ensures f < |states[j].owner| && f < |states[j].actor.futures| && |states[i + 1].applied| >= |states[i].applied|
    ensures var w, v, c := states[i], states[i + 1], states[j].owner[f];
            var answer := states[j].actor.futures[f];
            || (answer == Cancelled && exists k :: 0 <= k < j && events[k] == CancelFuture(f))
            || (v.applied != w.applied && answer.Done? && v.applied == w.applied + [Applied(c, answer.result)])
            || (v.applied == w.applied && answer.Failed?
                && Apply(kit, w.actor.(queue := w.actor.queue[1..]), c).1 == Err(answer.error))
  {
    hide MatchRun, Tended, Apply, WorldInv, Lawful;
    TakenFate(kit, game, states, events, i, f);
    FateHolds(kit, game, states, events, i + 1, j, f);
    AnswersStay(kit, game, states, events, i, j, f);
    if states[j].actor.futures[f].Cancelled? {
      CancelledByWaiter(kit, game, states, events, j, f);
    }
  }

  /** Commands are met in the order they were first submitted in. */
  lemma FirstComeFirstServed(kit: PokerKit, game: Match, states: seq<World>, events: seq<Event>, i: nat, j: nat,
                             f: FutureId, g: FutureId)
    requires MatchRun(kit, game, states, events) && i < j < |events| && |states| == |events| + 1
    requires Taken(states[i], events[i], f) && Taken(states[j], events[j], g)
    ensures f < g
  {
    hide MatchRun, Tended, Apply, WorldInv, Lawful;
    TakenFate(kit, game, states, events, i, f);
    FateHolds(kit, game, states, events, i + 1, j, f);
  }
}
