/** The snapshots a run of the match actor serves, as the client's store and sound cues meet them. */
module ServedSnapshots {
  import opened Prelude
  import opened PokerHand
  import opened MatchState
  import opened ActorState
  import opened ActorApply
  import opened ActorRuns
  import opened ActorTheorems
  import S = SnapshotStore
  import C = SoundCues
  import R = SoundRuns

  // ---------------------------------------------------------------------------------------------
  // What a state shows
  // ---------------------------------------------------------------------------------------------

  /** The frozen snapshot is the last one the match showed. */
  predicate TerminalFits(s: Actor) {
    s.terminal.Some? ==>
      var a := s.terminal.value;
      && a.matchId == s.matchId && a.handId == s.game.handNumber
      && a.public.stateVersion == s.stateVersion && a.actions == s.handActions
  }

  lemma FinishFits(kit: PokerKit, s: Actor, c: MatchCommand, applied: AppliedAction)
    requires s.terminal.None? && s.handId == Some(s.game.handNumber) && FinishHand(kit, s, c, applied).1.Ok?
    ensures TerminalFits(FinishHand(kit, s, c, applied).0)
  {
    hide StartHand, Deposit, MatchIsComplete, Settle, PublicView;
  }

  lemma ApplyFits(kit: PokerKit, s: Actor, c: MatchCommand)
    requires Lawful(kit) && ActorInv(s) && Apply(kit, s, c).1.Ok? && TerminalFits(s)
    ensures TerminalFits(Apply(kit, s, c).0)
  {
    HandIds(s);
    PlayingActor(s);
    hide ActorInv, Lawful, FinishHand, Advance, PublicView, Hand.Complete, Stamped, TerminalFits;
    var (game, applied) := Advance(kit, s.game, c).value;
    var logged := Logged(s, game, PublicView(s.game.hand.value).street, applied);
    AdvanceKeepsNumber(kit, s.game, c);
    if game.hand.Some? && game.hand.value.Complete() {
      FinishFits(kit, logged, c, applied);
    } else {
      NoTerminal(ScheduleActionTimer(logged));
    }
  }

  lemma NoTerminal(s: Actor)
    requires s.terminal.None?
    ensures TerminalFits(s)
  {
  }

  lemma PlayingActor(s: Actor)
    requires ActorInv(s)
    ensures s.game.hand.Some? ==> s.terminal.None?
  {
  }

  lemma AdvanceKeepsNumber(kit: PokerKit, m: Match, c: MatchCommand)
    requires Advance(kit, m, c).Ok?
    ensures Advance(kit, m, c).value.0.handNumber == m.handNumber
  {
  }

  lemma StepFits(kit: PokerKit, w: World, e: Event)
    requires Lawful(kit) && WorldInv(w) && TerminalFits(w.actor)
    ensures TerminalFits(Step(kit, w, e).actor)
  {
    hide ActorInv, Journal, QueueAgrees, Recorded, Versioned, Answered, Lawful, Apply;
    if e.TakeNext? && w.actor.queue != [] && w.actor.delivering.None? {
      var s, c := w.actor.(queue := w.actor.queue[1..]), w.actor.queue[0].command;
      ActorFrame(w.actor, s);
      ApplyAllOrNothing(kit, s, c);
      if Apply(kit, s, c).1.Ok? {
        ApplyFits(kit, s, c);
      }
    }
  }

  lemma {:induction false} RunFits(kit: PokerKit, game: Match, states: seq<World>, events: seq<Event>, i: nat)
    requires MatchRun(kit, game, states, events) && i < |states|
    ensures TerminalFits(states[i].actor)
  {
    hide WorldInv, Lawful, Step, MatchRun;
    if i == 0 {
      OpeningInv(kit, game, states, events);
    } else {
      RunLength(kit, game, states, events);
      RunFits(kit, game, states, events, i - 1);
      RunInv(kit, game, states, events, i - 1);
      StepAt(kit, game, states, events, i - 1);
      StepFits(kit, states[i - 1], events[i - 1]);
    }
  }

  function Rows(log: seq<HandAction>): seq<S.TableAction> {
    seq(|log|, i requires 0 <= i < |log| =>
      S.TableAction(log[i].sequenceNo, log[i].accountId, log[i].street, log[i].action, log[i].amount))
  }

  /** The parts of a snapshot that come from the card library, as functions of the game it is at. */
  datatype Library = Library(
    players: (Match, Option<ActorSnapshot>) -> seq<S.TablePlayer>,
    board: (Match, Option<ActorSnapshot>) -> seq<S.Card>,
    holeCards: (Match, Option<ActorSnapshot>) -> seq<S.Card>)

  function BoardAt(lib: Library, w: World): seq<S.Card> {
    lib.board(w.actor.game, w.actor.terminal)
  }

  /** A snapshot sent while the actor was in this state; only the time left depends on the moment. */
  predicate Serves(lib: Library, w: World, e: S.StoreEvent) {
    && S.Delivers(e) && CurrentSnapshot(w.actor).Ok?
    && var a := CurrentSnapshot(w.actor).value;
    e.snapshot ==
      S.Snapshot(a.matchId, a.handId, a.public.stateVersion, lib.players(w.actor.game, w.actor.terminal), Rows(a.actions),
                 BoardAt(lib, w), a.public.actor, e.snapshot.remaining,
                 if e.Private? then Some(lib.holeCards(w.actor.game, w.actor.terminal)) else None)
  }

  /** Every snapshot delivered was served by the run, at whatever moment; the store is not reset. */
  ghost predicate AllServed(lib: Library, states: seq<World>, deliveries: seq<S.StoreEvent>) {
    forall e :: e in deliveries ==>
      !e.Reset? && (S.Delivers(e) ==> exists i :: 0 <= i < |states| && Serves(lib, states[i], e))
  }

  /** What the library has to promise about boards: within a hand they only grow. */
  ghost predicate BoardsGrow(lib: Library, states: seq<World>) {
    forall i, j :: 0 <= i <= j < |states| && states[i].actor.game.handNumber == states[j].actor.game.handNumber ==>
      BoardAt(lib, states[i]) <= BoardAt(lib, states[j])
  }

  // ---------------------------------------------------------------------------------------------
  // Two snapshots of one run
  // ---------------------------------------------------------------------------------------------

  lemma ServedFields(lib: Library, w: World, e: S.StoreEvent)
    requires WorldInv(w) && TerminalFits(w.actor) && Serves(lib, w, e)
    ensures var s := e.snapshot;
            && s.matchId == w.actor.matchId && s.handId == w.actor.game.handNumber && s.version == w.actor.stateVersion
            && s.actions == Rows(w.actor.handActions) && s.board == BoardAt(lib, w)
  {
    Invariants(w);
    HandIds(w.actor);
    hide WorldInv, ActorInv, PublicView;
  }

  lemma RowsGrow(log: seq<HandAction>, longer: seq<HandAction>)
    requires log <= longer
    ensures Rows(log) <= Rows(longer)
  {
  }

  /** Of two moments of a run, the later shows no older version, and of one version both show the same. */
  lemma TwoServed(kit: PokerKit, game: Match, states: seq<World>, events: seq<Event>, lib: Library, i: nat, j: nat,
                  e: S.StoreEvent, f: S.StoreEvent)
    requires MatchRun(kit, game, states, events) && i <= j < |states|
    requires Serves(lib, states[i], e) && Serves(lib, states[j], f)
    ensures e.snapshot.matchId == f.snapshot.matchId == states[0].actor.matchId
    ensures e.snapshot.version <= f.snapshot.version && e.snapshot.handId <= f.snapshot.handId
    ensures e.snapshot.handId == f.snapshot.handId ==> e.snapshot.actions <= f.snapshot.actions
    ensures e.snapshot.version == f.snapshot.version ==> S.Shared(e.snapshot) == S.Shared(f.snapshot)
    ensures e.snapshot.version == f.snapshot.version && e.Private? && f.Private? ==>
              e.snapshot.holeCards == f.snapshot.holeCards
    ensures BoardsGrow(lib, states) && e.snapshot.handId == f.snapshot.handId ==> e.snapshot.board <= f.snapshot.board
  {
    hide MatchRun, WorldInv, Lawful, TotalChips, StackOf, TerminalFits, BoardAt, CurrentSnapshot;
    RunFits(kit, game, states, events, i);
    RunFits(kit, game, states, events, j);
    RunInv(kit, game, states, events, i);
    RunInv(kit, game, states, events, j);
    RunContinues(kit, game, states, events, 0, i);
    RunContinues(kit, game, states, events, i, j);
    LogsOnlyGrow(kit, game, states, events, i, j);
    ServedFields(lib, states[i], e);
    ServedFields(lib, states[j], f);
    if e.snapshot.handId == f.snapshot.handId {
      RowsGrow(states[i].actor.handActions, states[j].actor.handActions);
    }
    if e.snapshot.version == f.snapshot.version {
      SameState(lib, states[i], states[j], e, f);
    }
  }

  lemma SameState(lib: Library, w: World, v: World, e: S.StoreEvent, f: S.StoreEvent)
    requires Unmoved(w, v) && w.actor.handActions == v.actor.handActions && Serves(lib, w, e) && Serves(lib, v, f)
    ensures S.Shared(e.snapshot) == S.Shared(f.snapshot)
    ensures e.Private? && f.Private? ==> e.snapshot.holeCards == f.snapshot.holeCards
  {
    hide PublicView;
    assert CurrentSnapshot(w.actor) == CurrentSnapshot(v.actor);
  }

  /** Two snapshots of a run, whichever was served first. */
  lemma AnyTwoServed(kit: PokerKit, game: Match, states: seq<World>, events: seq<Event>, lib: Library,
                     deliveries: seq<S.StoreEvent>, e: S.StoreEvent, f: S.StoreEvent)
    requires MatchRun(kit, game, states, events) && AllServed(lib, states, deliveries)
    requires e in deliveries && f in deliveries && S.Delivers(e) && S.Delivers(f) && e.snapshot.version <= f.snapshot.version
    ensures |states| > 0 && e.snapshot.matchId == f.snapshot.matchId == states[0].actor.matchId
    ensures e.snapshot.handId <= f.snapshot.handId
    ensures e.snapshot.handId == f.snapshot.handId ==> e.snapshot.actions <= f.snapshot.actions
    ensures e.snapshot.version == f.snapshot.version ==> S.Shared(e.snapshot) == S.Shared(f.snapshot)
    ensures e.snapshot.version == f.snapshot.version && e.Private? && f.Private? ==>
              e.snapshot.holeCards == f.snapshot.holeCards
    ensures BoardsGrow(lib, states) && e.snapshot.handId == f.snapshot.handId ==> e.snapshot.board <= f.snapshot.board
  {
    hide MatchRun, Serves, BoardsGrow;
    var i :| 0 <= i < |states| && Serves(lib, states[i], e);
    var j :| 0 <= j < |states| && Serves(lib, states[j], f);
    if i <= j {
      TwoServed(kit, game, states, events, lib, i, j, e, f);
    } else {
      TwoServed(kit, game, states, events, lib, j, i, f, e);
      SharedParts(e.snapshot, f.snapshot);
    }
  }

  lemma SharedParts(s: S.Snapshot, t: S.Snapshot)
    requires S.Shared(s) == S.Shared(t)
    ensures s.handId == t.handId && s.actions == t.actions && s.board == t.board
  {
    assert S.Shared(s).handId == s.handId && S.Shared(s).actions == s.actions && S.Shared(s).board == s.board;
  }

  /** All deliveries belong to one match and tell one story, whatever the library shows. */
  lemma ServedIsOneStory(kit: PokerKit, game: Match, states: seq<World>, events: seq<Event>, lib: Library,
                         deliveries: seq<S.StoreEvent>)
    requires MatchRun(kit, game, states, events) && AllServed(lib, states, deliveries)
    ensures |states| > 0 && S.OneMatch(deliveries, states[0].actor.matchId) && S.OneStory(deliveries)
  {
    RunLength(kit, game, states, events);
    hide MatchRun, Serves;
    forall i | 0 <= i < |deliveries|
      ensures !deliveries[i].Reset?
      ensures S.Delivers(deliveries[i]) ==> deliveries[i].snapshot.matchId == states[0].actor.matchId
    {
      var e := deliveries[i];
      assert e in deliveries;
      if S.Delivers(e) {
        AnyTwoServed(kit, game, states, events, lib, deliveries, e, e);
      }
    }
    hide AllServed;
    forall e, f | e in deliveries && f in deliveries && S.Delivers(e) && S.Delivers(f) && e.snapshot.version <= f.snapshot.version
      ensures e.snapshot.handId <= f.snapshot.handId
      ensures e.snapshot.version == f.snapshot.version ==> S.Shared(e.snapshot) == S.Shared(f.snapshot)
      ensures e.snapshot.version == f.snapshot.version && e.Private? && f.Private? ==>
                e.snapshot.holeCards == f.snapshot.holeCards
    {
      AnyTwoServed(kit, game, states, events, lib, deliveries, e, f);
    }
  }

  /** With boards that only grow within a hand, the snapshots of a run grow with the version. */
  lemma ServedIsHonest(kit: PokerKit, game: Match, states: seq<World>, events: seq<Event>, lib: Library,
                       deliveries: seq<S.StoreEvent>)
    requires MatchRun(kit, game, states, events) && AllServed(lib, states, deliveries) && BoardsGrow(lib, states)
    ensures R.HonestServer(deliveries)
  {
    hide MatchRun, Serves, AllServed, BoardsGrow;
    forall e, f | e in deliveries && f in deliveries && S.Delivers(e) && S.Delivers(f) && e.snapshot.version <= f.snapshot.version
      ensures R.Grows(e.snapshot, f.snapshot)
    {
      AnyTwoServed(kit, game, states, events, lib, deliveries, e, f);
    }
  }

  // ---------------------------------------------------------------------------------------------
  // From a run of the server to what the player sees and hears
  // ---------------------------------------------------------------------------------------------

  /** Two clients that received the same snapshots of a run, in any order and number, show the same table. */
  lemma ClientsConverge(kit: PokerKit, game: Match, states: seq<World>, events: seq<Event>, lib: Library,
                        xs: seq<S.StoreEvent>, ys: seq<S.StoreEvent>)
    requires MatchRun(kit, game, states, events) && AllServed(lib, states, xs) && S.SameDelivered(xs, ys)
    ensures S.VersionOf(S.After(xs).public) == S.VersionOf(S.After(ys).public) == S.Newest(xs)
    ensures S.After(xs).public.Some? ==>
              S.After(ys).public.Some? && S.Shared(S.After(xs).public.value) == S.Shared(S.After(ys).public.value)
    ensures S.OrderIrrelevant(xs) <==> S.DealtAtNewest(xs) || !S.DealtNewestHand(xs)
  {
    hide MatchRun, Serves, S.After, S.OneStory, S.DealtAtNewest, S.DealtNewestHand, S.OrderIrrelevant;
    ServedIsOneStory(kit, game, states, events, lib, xs);
    S.SameEvents(xs, ys, states[0].actor.matchId);
    StoryTables(xs);
    S.ReorderingConverges(xs, ys, states[0].actor.matchId);
    S.PrivateOrderIff(xs, states[0].actor.matchId);
  }

  lemma StoryTables(events: seq<S.StoreEvent>)
    requires S.OneStory(events)
    ensures S.OneTablePerVersion(events)
  {
  }

  /** Each action, card, hand and turn of a run is announced at most once, in whatever order its snapshots arrive. */
  lemma AnnouncedOncePerRun(kit: PokerKit, game: Match, states: seq<World>, events: seq<Event>, lib: Library,
                            deliveries: seq<S.StoreEvent>, hero: AccountId, i: nat, j: nat, key: C.CueKey)
    requires MatchRun(kit, game, states, events) && AllServed(lib, states, deliveries) && BoardsGrow(lib, states)
    requires i < j && R.Emitted(R.ShownAfter(deliveries), hero, i, key) && R.Emitted(R.ShownAfter(deliveries), hero, j, key)
    ensures key.TimerTickKey?
  {
    hide MatchRun, AllServed, BoardsGrow, R.Emitted, R.ShownAfter, S.OneStory, R.HonestServer, S.OneMatch;
    ServedIsOneStory(kit, game, states, events, lib, deliveries);
    ServedIsHonest(kit, game, states, events, lib, deliveries);
    R.CuesOncePerMatch(deliveries, states[0].actor.matchId, hero);
  }
}
