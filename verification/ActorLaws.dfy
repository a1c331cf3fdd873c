/** What a command needs to be accepted, what its result says, and what a finished hand leaves behind. */
module ActorLaws {
  import opened Prelude
  import opened Blinds
  import opened PokerHand
  import opened MatchState
  import opened ActorState
  import opened ActorApply
  import opened ActorRuns
  import opened ActorTheorems

  // ---------------------------------------------------------------------------------------------
  // Acceptance
  // ---------------------------------------------------------------------------------------------

  predicate Identified(c: MatchCommand) {
    c.matchId.Some? && c.handId.Some? && c.stateVersion.Some?
  }

  /** Aimed at this state; timers and quits say so in full, and only players quit, by a fold. */
  predicate Admissible(s: Actor, c: MatchCommand) {
    && Aimed(s, c)
    && (!c.source.Player? || c.quit ==> Identified(c))
    && (c.quit ==> c.source.Player? && c.action.action == Fold && c.action.amount == None)
  }

  /** The table takes it: a quit from anybody dealt in while the hand is on, an action as the hand accepts it. */
  predicate TableTakes(kit: PokerKit, m: Match, c: MatchCommand)
    requires m.hand.Some?
  {
    if c.quit then c.action.accountId in m.handPlayerIds && m.hand.value.table.active
    else ApplyAction(kit, m.hand.value, c.action).Ok?
  }

  /** A command is accepted exactly when it is admissible and the table takes it. */
  lemma AppliedIff(kit: PokerKit, s: Actor, c: MatchCommand)
    requires Lawful(kit) && ActorInv(s)
    ensures Apply(kit, s, c).1.Ok? <==> Admissible(s, c) && TableTakes(kit, s.game, c)
  {
    HandIds(s);
    GameValid(s);
    Frozen(s);
    if s.game.hand.Some? {
      ValidIff(s, c);
      if ValidateCurrent(s, c).None? {
        hide ActorInv, Lawful, MatchInv, Apply, ValidateCurrent;
        AcceptedWhenEngineAccepts(kit, s, c);
        if c.quit {
          QuitHandInv(s.game, c.action.accountId);
          hide QuitHand;
        } else {
          hide ApplyAction;
        }
      } else {
        hide ActorInv, Lawful, MatchInv;
      }
    } else {
      hide ActorInv, Lawful, MatchInv;
    }
  }

  lemma Frozen(s: Actor)
    requires ActorInv(s)
    ensures s.game.hand.Some? <==> s.terminal.None?
  {
  }

  lemma ValidIff(s: Actor, c: MatchCommand)
    requires s.handId.Some? && s.game.hand.Some? && s.terminal.None?
    ensures ValidateCurrent(s, c).None? <==>
            && Aimed(s, c) && (!c.source.Player? || c.quit ==> Identified(c)) && (c.quit ==> c.source.Player?)
  {
  }

  // ---------------------------------------------------------------------------------------------
  // The result
  // ---------------------------------------------------------------------------------------------

  /** The result shows the state the command led to, and names the action that led there. */
  predicate Tells(t: Actor, c: MatchCommand, result: CommandResult) {
    && CurrentSnapshot(t) == Ok(ActorSnapshot(result.matchId, result.handId, t.game.handNumber, ButtonOnShow(t),
                                              result.snapshot, LogOnShow(t)))
    && result.matchStatus == t.game.status && result.stateVersion == t.stateVersion
    && result.commandId == c.commandId
    && result.applied.accountId == c.action.accountId && result.applied.action == c.action.action
    && result.quitAccount == if c.quit then Some(c.action.accountId) else None
  }

  function ButtonOnShow(t: Actor): AccountId {
    if t.terminal.Some? then t.terminal.value.buttonAccountId
    else if t.game.buttonIndex < |t.game.playerIds| then t.game.playerIds[t.game.buttonIndex] else 0
  }

  function LogOnShow(t: Actor): seq<HandAction> {
    if t.terminal.Some? then t.terminal.value.actions else t.handActions
  }

  lemma AdvanceTells(kit: PokerKit, m: Match, c: MatchCommand)
    requires Advance(kit, m, c).Ok?
    ensures var (next, applied) := Advance(kit, m, c).value;
            && applied.accountId == c.action.accountId && applied.action == c.action.action
            && next.handNumber == m.handNumber && next.playerIds == m.playerIds && next.stacks == m.stacks
            && next.handPlayerIds == m.handPlayerIds && next.handBlinds == m.handBlinds
  {
  }

  lemma SettledFields(m: Match)
    requires SettleHand(m).Ok?
    ensures SettleHand(m).value.0.handNumber == m.handNumber
  {
    hide MatchIsComplete, Deposit, Settle;
  }

  lemma FinishTells(kit: PokerKit, s: Actor, c: MatchCommand, applied: AppliedAction)
    requires s.terminal.None? && s.handId == Some(s.game.handNumber) && FinishHand(kit, s, c, applied).1.Ok?
    requires applied.accountId == c.action.accountId && applied.action == c.action.action
    ensures var (t, r) := FinishHand(kit, s, c, applied); Tells(t, c, r.value)
  {
    SettledFields(s.game);
    hide SettleHand, StartHand, PublicView, Settle, MatchIsComplete;
  }

  lemma ConcludeTells(kit: PokerKit, s: Actor, c: MatchCommand, game: Match, applied: AppliedAction)
    requires s.terminal.None? && s.game.hand.Some? && s.handId == Some(s.game.handNumber)
    requires Advance(kit, s.game, c) == Ok((game, applied)) && game.hand.Some?
    requires Conclude(kit, s, c, game, applied).1.Ok?
    ensures var (t, r) := Conclude(kit, s, c, game, applied); Tells(t, c, r.value)
  {
    AdvanceTells(kit, s.game, c);
    hide Advance, FinishHand, PublicView;
    if game.hand.value.Complete() {
      hide Tells, Hand.Complete;
      FinishTells(kit, Logged(s, game, PublicView(s.game.hand.value).street, applied), c, applied);
    }
  }

  /** Every accepted command's result shows the state the command led to. */
  lemma ResultTells(kit: PokerKit, s: Actor, c: MatchCommand)
    requires Lawful(kit) && ActorInv(s) && Apply(kit, s, c).1.Ok?
    ensures var (t, r) := Apply(kit, s, c); Tells(t, c, r.value)
  {
    HandIds(s);
    GameValid(s);
    Frozen(s);
    hide ActorInv, MatchInv, Lawful, Advance, Conclude, Tells, ValidateCurrent;
    AdvanceInv(kit, s.game, c);
    var (game, applied) := Advance(kit, s.game, c).value;
    ConcludeTells(kit, s, c, game, applied);
  }

  // ---------------------------------------------------------------------------------------------
  // The log
  // ---------------------------------------------------------------------------------------------

  /** The entry says who did what, on the street that was on show, and under the version it led to. */
  predicate EntryTells(m: Match, version: nat, c: MatchCommand, entry: HandAction) {
    && entry.accountId == c.action.accountId && entry.action == c.action.action
    && entry.street == StreetOnShow(m) && entry.stateVersion == version
  }

  /** The log that a command was written to: of the hand in play, or of the hand it ended. */
  function LogAfter(t: Actor, result: CommandResult): seq<HandAction> {
    if result.completed.Some? then result.completed.value.actions else t.handActions
  }

  /** Every accepted command adds one entry to the log of its hand, and that entry tells. */
  lemma LogTells(kit: PokerKit, s: Actor, c: MatchCommand)
    requires Lawful(kit) && ActorInv(s) && Apply(kit, s, c).1.Ok?
    ensures var (t, r) := Apply(kit, s, c);
            var log := LogAfter(t, r.value);
            && |log| == |s.handActions| + 1 && log[..|s.handActions|] == s.handActions
            && EntryTells(s.game, s.stateVersion + 1, c, log[|s.handActions|])
  {
    hide ActorInv, Lawful, Apply, CurrentSnapshot, ChipsKept, StreetOnShow, LogGrew, Tells, Aimed;
    ApplyAllOrNothing(kit, s, c);
    ResultTells(kit, s, c);
    EntryTold(s, Apply(kit, s, c).0, c, Apply(kit, s, c).1.value);
  }

  lemma EntryTold(s: Actor, t: Actor, c: MatchCommand, result: CommandResult)
    requires LogGrew(s, t, StreetOnShow(s.game), result) && Tells(t, c, result)
    ensures var log := LogAfter(t, result);
            && |log| == |s.handActions| + 1 && log[..|s.handActions|] == s.handActions
            && EntryTells(s.game, s.stateVersion + 1, c, log[|s.handActions|])
  {
    hide CurrentSnapshot, StreetOnShow;
  }

  // ---------------------------------------------------------------------------------------------
  // A finished hand
  // ---------------------------------------------------------------------------------------------

  /** Everybody dealt in leaves the hand with the final stack of their own seat. */
  predicate StacksTaken(after: map<AccountId, int>, dealt: seq<AccountId>, finals: seq<int>) {
    && |finals| == |dealt|
    && (forall k :: 0 <= k < |dealt| ==> StackOf(after, dealt[k]) == finals[k])
  }

  /** The record of a finished hand: what it was dealt with, and what it was settled with. */
  ghost predicate OnRecord(s: Actor, t: Actor, completed: CompletedHand)
    requires s.game.hand.Some?
  {
    var h := s.game.hand.value;
    && Some(completed.handId) == s.handId && completed.handNumber == s.game.handNumber
    && s.game.handBlinds == Some(completed.blinds)
    && completed.public.accountIds == h.accountIds && completed.startingStacks == h.startingStacks
    && completed.public.complete && completed.public.actor.None?
    && StacksTaken(t.game.stacks, h.accountIds, completed.settlement.finalStacks)
    && (forall account :: account !in h.accountIds ==>
          StackOf(t.game.stacks, account) == StackOf(s.game.stacks, account))
    && (t.terminal.Some? ==>
          var public := t.terminal.value.public;
          && public.accountIds == h.accountIds && public.stacks == completed.settlement.finalStacks
          && public.complete && public.actor.None? && public.street == Settled && public.potAmounts == []
          && public.bets == seq(|completed.settlement.finalStacks|, _ => 0))
  }

  lemma SettleTakes(m: Match)
    requires MatchInv(m) && m.hand.Some? && m.hand.value.Complete()
    ensures SettleHand(m).Ok? && Settle(m.hand.value).Ok?
    ensures var after, finals := SettleHand(m).value.0.stacks, Settle(m.hand.value).value.finalStacks;
            && SettleHand(m).value.1 == Settle(m.hand.value).value
            && StacksTaken(after, m.handPlayerIds, finals) && m.handPlayerIds == m.hand.value.accountIds
            && forall account :: account !in m.handPlayerIds ==> StackOf(after, account) == StackOf(m.stacks, account)
  {
    hide MatchInv, MatchIsComplete, Settle, ValidHand, Funded, HandSettled, Hand.Complete;
    SettleHandInv(m);
    DealtApart(m);
    SettlementChips(m.hand.value);
    var dealt, finals := m.handPlayerIds, Settle(m.hand.value).value.finalStacks;
    DepositAt(m.stacks, dealt, finals);
    forall k | 0 <= k < |dealt| ensures StackOf(Deposit(m.stacks, dealt, finals), dealt[k]) == finals[k] {
      assert StacksOf(Deposit(m.stacks, dealt, finals), dealt)[k] == finals[k];
    }
  }

  lemma DealtApart(m: Match)
    requires MatchInv(m) && m.hand.Some?
    ensures Distinct(m.handPlayerIds) && m.handPlayerIds == m.hand.value.accountIds && ValidHand(m.hand.value)
  {
    FundedMembers(m.playerIds, m.stacks);
  }

  lemma CompleteShown(h: Hand)
    requires ValidHand(h) && h.Complete()
    ensures PublicView(h).complete && PublicView(h).actor.None? && PublicView(h).accountIds == h.accountIds
  {
  }

  /** The hand goes on record as it was logged, whatever comes next. */
  lemma FinishRecords(kit: PokerKit, s: Actor, c: MatchCommand, applied: AppliedAction)
    requires Lawful(kit) && MatchInv(s.game) && s.game.hand.Some? && s.game.hand.value.Complete()
    requires s.handId == Some(s.game.handNumber) && s.terminal.None?
    requires s.handStartingStacks == s.game.hand.value.startingStacks
    ensures var (t, r) := FinishHand(kit, s, c, applied);
            r.Ok? && r.value.completed.Some? && OnRecord(s, t, r.value.completed.value)
  {
    hide MatchInv, SettleHand, StartHand, Lawful, Hand.Complete, PublicView, Settle, StackOf, ValidHand, HandSettled;
    hide FinishHand, StacksTaken;
    SettleTakes(s.game);
    SettleHandInv(s.game);
    BlindsSet(s.game);
    DealtApart(s.game);
    CompleteShown(s.game.hand.value);
    var (game, settlement) := SettleHand(s.game).value;
    HandGone(s.game, game);
    FinishHandInv(kit, s, c, applied);
    FinishCompletes(kit, s, c, applied);
    if game.status.Active? {
      StartHandSucceeds(kit, game);
    }
    FinishLeaves(kit, s, c, applied, game, settlement);
  }

  lemma FinishLeaves(kit: PokerKit, s: Actor, c: MatchCommand, applied: AppliedAction, game: Match, settlement: Settlement)
    requires s.game.hand.Some? && s.terminal.None? && FinishHand(kit, s, c, applied).1.Ok?
    requires SettleHand(s.game) == Ok((game, settlement))
    requires game.status.Active? ==> NextDealt(game, StartHand(kit, game).0)
    ensures var t := FinishHand(kit, s, c, applied).0;
            && t.game.stacks == game.stacks
            && (t.terminal.Some? ==> t.terminal.value.public == SettledView(Stamped(s.game, s.stateVersion), settlement))
  {
    hide SettleHand, StartHand, Stamped, SettledView;
  }

  lemma HandGone(m: Match, after: Match)
    requires m.hand.Some? && HandSettled(m, after)
    ensures after.hand.None?
  {
  }

  lemma RecordedBefore(s: Actor, logged: Actor, t: Actor, completed: CompletedHand)
    requires s.game.hand.Some? && logged.game.hand.Some? && OnRecord(logged, t, completed)
    requires logged.handId == s.handId && logged.game.handNumber == s.game.handNumber
    requires logged.game.handBlinds == s.game.handBlinds && logged.game.stacks == s.game.stacks
    requires logged.game.hand.value.accountIds == s.game.hand.value.accountIds
    requires logged.game.hand.value.startingStacks == s.game.hand.value.startingStacks
    ensures OnRecord(s, t, completed)
  {
    hide StackOf, StacksTaken;
  }

  lemma AdvanceKeepsHand(kit: PokerKit, m: Match, c: MatchCommand)
    requires Lawful(kit) && MatchInv(m) && m.hand.Some? && m.hand.value.quit.None? && Advance(kit, m, c).Ok?
    ensures var next := Advance(kit, m, c).value.0;
            && next.hand.Some? && next.hand.value.accountIds == m.hand.value.accountIds
            && next.hand.value.startingStacks == m.hand.value.startingStacks && MatchInv(next)
            && (c.quit ==> next.hand.value.Complete())
  {
    AdvanceInv(kit, m, c);
    if !c.quit {
      ApplyActionValid(kit, m.hand.value, c.action);
    }
  }

  /** A command that ends a hand leaves exactly this record, and these stacks. */
  lemma CompletedTells(kit: PokerKit, s: Actor, c: MatchCommand)
    requires Lawful(kit) && ActorInv(s) && s.game.hand.Some? && Apply(kit, s, c).1.Ok?
    ensures var (t, r) := Apply(kit, s, c);
            if r.value.completed.Some? then OnRecord(s, t, r.value.completed.value)
            else t.terminal.None? && t.game.stacks == s.game.stacks
  {
    HandIds(s);
    GameValid(s);
    Frozen(s);
    StartsKept(s);
    AdvanceTells(kit, s.game, c);
    AdvanceKeepsHand(kit, s.game, c);
    hide ActorInv, MatchInv, Lawful, Advance, FinishHand, PublicView, OnRecord, ValidateCurrent, Hand.Complete;
    var (game, applied) := Advance(kit, s.game, c).value;
    var logged := Logged(s, game, PublicView(s.game.hand.value).street, applied);
    if game.hand.value.Complete() {
      FinishRecords(kit, logged, c, applied);
      RecordedBefore(s, logged, FinishHand(kit, logged, c, applied).0,
                     FinishHand(kit, logged, c, applied).1.value.completed.value);
    }
  }

  lemma StartsKept(s: Actor)
    requires ActorInv(s)
    ensures s.game.hand.Some? ==> s.handStartingStacks == s.game.hand.value.startingStacks
  {
  }

  // ---------------------------------------------------------------------------------------------
  // When a match is over
  // ---------------------------------------------------------------------------------------------

  /** No two players are left with chips. */
  predicate OnePlayerLeft(m: Match) {
    forall i, j :: 0 <= i < j < |m.playerIds| ==>
      StackOf(m.stacks, m.playerIds[i]) <= 0 || StackOf(m.stacks, m.playerIds[j]) <= 0
  }

  lemma OneLeftIff(m: Match)
    requires MatchInv(m)
    ensures FundedOut(m) <==> OnePlayerLeft(m)
  {
    DistinctPlayers(m);
    FundedMembers(m.playerIds, m.stacks);
    hide MatchInv, Funded, StackOf;
    var funded := Funded(m.playerIds, m.stacks);
    if |funded| >= 2 {
      assert funded[0] in funded && funded[1] in funded;
      var i :| 0 <= i < |m.playerIds| && m.playerIds[i] == funded[0];
      var j :| 0 <= j < |m.playerIds| && m.playerIds[j] == funded[1];
      assert i < j || j < i;
    } else {
      forall i, j | 0 <= i < j < |m.playerIds|
        ensures StackOf(m.stacks, m.playerIds[i]) <= 0 || StackOf(m.stacks, m.playerIds[j]) <= 0
      {
        assert m.playerIds[i] in funded <==> StackOf(m.stacks, m.playerIds[i]) > 0;
        assert m.playerIds[j] in funded <==> StackOf(m.stacks, m.playerIds[j]) > 0;
      }
    }
  }

  lemma DistinctPlayers(m: Match)
    requires MatchInv(m)
    ensures Distinct(m.playerIds)
  {
  }

  /** A match is only over for one of the two reasons. */
  predicate EndedForAReason(m: Match) {
    m.status.Complete? ==> MatchIsComplete(m)
  }

  lemma FinishEnds(kit: PokerKit, s: Actor, c: MatchCommand, applied: AppliedAction)
    requires Lawful(kit) && MatchInv(s.game) && s.game.hand.Some? && s.game.hand.value.Complete()
    ensures var (t, r) := FinishHand(kit, s, c, applied);
            r.Ok? ==> EndedForAReason(t.game)
  {
    SettleHandInv(s.game);
    hide MatchInv, SettleHand, StartHand, Lawful, Hand.Complete, Stamped, MatchIsComplete, HandSettled;
    var (game, settlement) := SettleHand(s.game).value;
    HandGone(s.game, game);
    if game.status.Active? {
      StartHandSucceeds(kit, game);
    }
  }

  lemma ApplyEnds(kit: PokerKit, s: Actor, c: MatchCommand)
    requires Lawful(kit) && ActorInv(s) && EndedForAReason(s.game)
    ensures EndedForAReason(Apply(kit, s, c).0.game)
  {
    HandIds(s);
    GameValid(s);
    Frozen(s);
    ApplyAllOrNothing(kit, s, c);
    if Apply(kit, s, c).1.Ok? {
      InPlay(s, c, Apply(kit, s, c).0, Apply(kit, s, c).1.value);
      AdvanceKeepsHand(kit, s.game, c);
      hide ActorInv, MatchInv, Lawful, FinishHand, PublicView, EndedForAReason, AppliedOnce, Hand.Complete;
      var (game, applied) := Advance(kit, s.game, c).value;
      if game.hand.value.Complete() {
        FinishEnds(kit, Logged(s, game, PublicView(s.game.hand.value).street, applied), c, applied);
      } else {
        StillActive(game);
      }
    }
  }

  lemma InPlay(s: Actor, c: MatchCommand, t: Actor, result: CommandResult)
    requires AppliedOnce(s, t, c, result)
    ensures s.game.hand.Some?
  {
  }

  lemma StillActive(m: Match)
    requires MatchInv(m) && m.hand.Some?
    ensures EndedForAReason(m)
  {
  }

  lemma StepEnds(kit: PokerKit, w: World, e: Event)
    requires Lawful(kit) && WorldInv(w) && EndedForAReason(w.actor.game)
    ensures EndedForAReason(Step(kit, w, e).actor.game)
  {
    hide ActorInv, Journal, QueueAgrees, ActorRuns.Recorded, Versioned, Answered, Lawful, Apply, EndedForAReason;
    if e.TakeNext? && w.actor.queue != [] && w.actor.delivering.None? {
      var s, c := w.actor.(queue := w.actor.queue[1..]), w.actor.queue[0].command;
      ActorFrame(w.actor, s);
      ApplyEnds(kit, s, c);
    }
  }

  lemma {:induction false} RunEnds(kit: PokerKit, game: Match, states: seq<World>, events: seq<Event>, i: nat)
    requires MatchRun(kit, game, states, events) && i < |states|
    ensures EndedForAReason(states[i].actor.game)
  {
    hide MatchRun, WorldInv, Step, Lawful, EndedForAReason;
    if i == 0 {
      OpeningInv(kit, game, states, events);
      Invariants(states[0]);
      OpenedActive(states[0].actor);
    } else {
      RunLength(kit, game, states, events);
      RunEnds(kit, game, states, events, i - 1);
      RunInv(kit, game, states, events, i - 1);
      StepAt(kit, game, states, events, i - 1);
      StepEnds(kit, states[i - 1], events[i - 1]);
    }
  }

  lemma OpenedActive(s: Actor)
    requires ActorInv(s) && s.terminal.None?
    ensures EndedForAReason(s.game)
  {
  }

  lemma OverIff(w: World)
    requires WorldInv(w) && HandsSettled(w) && EndedForAReason(w.actor.game)
    ensures var m := w.actor.game;
            m.status.Complete? <==>
            OnePlayerLeft(m) || (m.rules.endMode.FixedHands? && Some(|w.archived|) == m.rules.fixedHandCount)
  {
    Invariants(w);
    GameValid(w.actor);
    OneLeftIff(w.actor.game);
    hide OnePlayerLeft, Journal, QueueAgrees, ActorRuns.Recorded, Versioned, Answered, Funded, StacksOf, ValidHand, AmountsFor;
  }

  /**
   * A match is over exactly when no two players have chips left, or the fixed number of hands has been
   * settled: never earlier, and at once.
   */
  lemma MatchOverIff(kit: PokerKit, ids: seq<AccountId>, rules: RoomRules, button: int, states: seq<World>,
                     events: seq<Event>, i: nat)
    requires ValidRules(rules) && NewMatch(ids, rules, button).Ok?
    requires MatchRun(kit, NewMatch(ids, rules, button).value, states, events) && i < |states|
    ensures states[i].actor.game.status.Complete? <==>
            || OnePlayerLeft(states[i].actor.game)
            || (rules.endMode.FixedHands? && Some(|states[i].archived|) == rules.fixedHandCount)
  {
    var game := NewMatch(ids, rules, button).value;
    NewMatchInv(ids, rules, button);
    hide MatchRun, NewMatch, WorldInv, Lawful, ValidRules, TotalChips, EndedForAReason, OnePlayerLeft, StackOf;
    OpeningInv(kit, game, states, events);
    RunContinues(kit, game, states, events, 0, i);
    RunInv(kit, game, states, events, i);
    RunEnds(kit, game, states, events, i);
    OverIff(states[i]);
  }
}
