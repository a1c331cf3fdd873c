# Verified model of the DokerFace state engines

DokerFace is a server-authoritative poker platform. The PokerKit library deals cards and ranks hands; the
repository's own code is the stateful layer around it. This Dafny project models that layer and proves what it
promises over whole runs: every interleaving of submissions, timers and disconnects, every history of matches,
every order of arriving snapshots.

| part | files |
|---|---|
| one hand and the engine's own arithmetic on it: quit settlement, raw blinds | `PokerHand`, `HandAdapter` |
| blinds and the chips, button and end of a match | `Blinds`, `MatchState`, `Coordination`, `Deals` |
| the command actor: queue, in-flight and processed commands, versions, timers | `ActorState`, `ActorApply`, `ActorRuns`, `ActorTheorems`, `ActorLaws`, `Answers`, `Timers`, `MatchActors` |
| multiplayer Elo and final ranks | `Elo`, `EloLaws`, `MatchResults` |
| the rating ledger, live and rebuilt | `Rounding`, `RatingLedger`, `RatingReplay`, `RatingOrder`, `RatingTheorems`, `RatingMatches`, `RatingService` |
| statistics, live and rebuilt | `StatisticsReducer`, `StatisticsRebuild`, `StatisticsAlgebra`, `StatisticsBounds`, `StatisticsLaws`, `PositionNames`, `HandRecords`, `HandAudit`, `BustedButton`, `LiveStatistics`, `LiveAgreement`, `StatisticsService` |
| connections, rooms and the server that joins them | `Connections`, `Rooms`, `RoomHistories`, `RoomService`, `RealtimeServer` |
| the client's snapshot store and sound cues, fed by a run of the actor | `SnapshotStore`, `SoundCues`, `SoundLaws`, `SoundRuns`, `ServedSnapshots` |
| concrete runs that show what the theorems leave open | `SampleRuns` |

Code that changes state in place is a class whose methods are proved equal to a step function on values
(`State() == step(old(State()))`, or a step relation where the source iterates a dictionary in an unspecified
order); loops of the source are loops with invariants. Whole-run results are lemmas about those step functions.

PokerKit is a record of functions (`PokerKit`) under a contract (`PokerHand.Lawful`): seats stay in range, no
operation makes or loses a chip, a hand that ends normally has paid everything out, whoever is to act can fold,
folding and showing are free, a call costs at most the amount to call and a raise at most what it adds to the bet.
Rejected operations return before the library is called, so they change nothing by construction. Hand ids are
modelled by hand numbers, fresh by the same argument; clocks appear only as timer identities.

## What the proofs found

- Ending a hand by quitting takes the pots already collected out of the match, and nothing else
  (`MatchState.QuitConservesIff`). There is a run in which both players go all-in, one quits, and a match that began
  with two hundred chips is over with none (`SampleRuns.EmptyTableReached`).
- The automatic action at showdown is a fold, which the engine refuses there. A timer's command is applied exactly
  when its hand and version are still current and the hand is on a betting street (`ActorTheorems.TimerAppliedIff`).
- A stored rating can differ by one quantum from stored before plus stored change, exactly on rounding ties
  whose change and result have different signs (`Rounding.StoredChange`, a row of a match in `RatingTheorems.TieRow`).
- A rebuild of the ratings changes nothing exactly when every settled match began in the batch and is still complete,
  and matches with a common player completed in the order they started (`RatingMatches.RebuildIsNoOpIff`). Both halves
  can fail. A match begun before the batch and finished inside it counts live and is lost by the next rebuild
  (`RatingMatches.StragglerLost`). A player who quits a match of three or more leaves the room while the match goes on,
  and may finish another match before it completes; the rebuild settles the two the other way round
  (`RatingMatches.OverlapReordered`).
- The live statistics conversion looks the displayed button up among the players of the hand. A hand fails it exactly
  when the player in the seat after the previous hand's button came out of that hand without chips
  (`BustedButton.NextHandFailsIff`), although the rebuild of the same hand succeeds (`HandRecords.PathsAgree`). Quitting is
  enough: when the player next to the button quits and the match goes on, the following hand always fails
  (`BustedButton.QuitFailsNextHand`, a run in `SampleRuns.QuitBreaksNextHand`). In a match that counts for statistics
  `_handle_match_result` answers that failure by voiding the match.
- Live statistics name positions among the players dealt in, rebuilt ones among all seats. A hand gets the same names
  both ways exactly when the seat after the button was dealt in, with three or more players the next one too, and
  everybody else sits before the first empty seat (`HandRecords.SameHandIff`). Over a history differences never cancel
  out (`LiveAgreement.LiveAgreesIff`).
- A match voided by an administrator after it completed leaves its hands and its end in the live statistics, while
  every later rebuild leaves them out; the two never agree again (`LiveAgreement.VoidedStaysCounted`).
- A join handled after its socket was superseded rebinds the member to the dead socket, and the member stays
  shown as connected after every socket is gone (`RealtimeServer.StaleJoinStaysOnline`).
- The shown version of a match can go down after another match was shown in between
  (`SnapshotStore.VersionDropsAcrossMatches`). Whether hole cards are held depends on arrival order exactly when the
  newest hand was dealt to the client but not at its newest version (`SnapshotStore.PrivateOrderIff`). A countdown
  tick repeats when the hero acts twice within a hand with the same seconds left (`SoundRuns.RepeatsIff`).

## Model

| member | source | states |
|---|---|---|
| `Blinds.BlindsDouble` | backend/app/game_engine/match.py:33-41 | both blinds double exactly once per interval of hands |
| `Blinds.BlindsMonotone` | backend/app/game_engine/match.py:33-41 | blinds never fall, keep big = 2 small, and move exactly when the level does |
| `Blinds.BlindsExceed` | backend/app/game_engine/match.py:33-41 | from a computable hand number on, the small blind exceeds any given chip total |
| `PokerHand.SimplestKitIsLawful` | backend/app/game_engine/pokerkit_adapter.py:82-128 | the contract assumed of the poker library can be met |
| `PokerHand.RawBlindsPosted` | backend/app/game_engine/pokerkit_adapter.py:130-145 | one small and one big blind are posted, on different seats, heads-up reversed |
| `PokerHand.ApplyActionValid` | backend/app/game_engine/pokerkit_adapter.py:205-238 | an accepted action keeps the hand valid, with the same players, starting stacks and chips, and costs nobody but its own player anything, and that one no more than the action is worth |
| `PokerHand.AcceptedIff` | backend/app/game_engine/pokerkit_adapter.py:205-238 | an action is accepted exactly on its player's turn, with the amount its kind asks for |
| `PokerHand.ReachesItsOperation` | backend/app/game_engine/pokerkit_adapter.py:205-238 | an accepted action reaches the library as the one operation it names, and is reported as it was |
| `PokerHand.OfferedIff` | backend/app/game_engine/pokerkit_adapter.py:147-172 | actions are offered to whoever's turn it is, and are exactly those that would be accepted |
| `PokerHand.ViewTells` | backend/app/game_engine/pokerkit_adapter.py:290-320 | seat by seat the public view shows stacks, bets, who folded and who is all-in, after a quit included |
| `PokerHand.ShownChips` | backend/app/game_engine/pokerkit_adapter.py:290-320 | the stacks and the one pot shown while the library names no pots are all chips of the hand |
| `PokerHand.QuitSplit` | backend/app/game_engine/pokerkit_adapter.py:251-288 | payouts add up to the forfeited stack and bet, fairly and earliest seats first; quitter at zero; others keep stack and bet; totals and payoffs add up |
| `PokerHand.PayoutsUnique` | backend/app/game_engine/pokerkit_adapter.py:256-264 | no other split of the forfeited chips meets those laws |
| `PokerHand.SettlementChips` | backend/app/game_engine/pokerkit_adapter.py:322-357 | a settlement gives back every chip of the hand, less the collected pots if it was a quit |
| `HandAdapter.PokerKitAdapter.PostBlinds` | backend/app/game_engine/pokerkit_adapter.py:130-145 | the list filled in place is the blind assignment of the specification |
| `HandAdapter.PokerKitAdapter.Create` | backend/app/game_engine/pokerkit_adapter.py:82-128 | creation fails on exactly the listed seating errors and otherwise deals the given seats and stacks |
| `HandAdapter.PokerKitAdapter.Act` | backend/app/game_engine/pokerkit_adapter.py:205-238 | the new hand and the reported action are those of the specification; a refusal changes nothing |
| `HandAdapter.PokerKitAdapter.HandOut` | backend/app/game_engine/pokerkit_adapter.py:261-264 | the loop over recipients hands out the fair shares and adds them to the stacks |
| `HandAdapter.PokerKitAdapter.Quit` | backend/app/game_engine/pokerkit_adapter.py:240-288 | the quit is recorded with the split settlement, or refused without any change |
| `MatchState.ButtonIsFirstFunded` | backend/app/game_engine/match.py:168-173 | the dealt button is the first funded seat clockwise, and there is none only without funded seats |
| `MatchState.DealtButton` | backend/app/game_engine/match.py:83-85 | the dealt button equals the displayed one exactly when the indexed seat has chips |
| `MatchState.NewMatchInv` | backend/app/game_engine/match.py:45-65 | a new match holds players times starting chips and is ready for its first hand |
| `MatchState.StartHandSucceeds` | backend/app/game_engine/match.py:107-130 | between hands of an active match every precondition of dealing holds, and no chip moves |
| `MatchState.NextDealValid` | backend/app/game_engine/pokerkit_adapter.py:90-101 | the next seating and configuration pass every check of the hand's constructor |
| `Deals.StartDealsByTheRules` | backend/app/game_engine/match.py:107-130 | a deal is the library's own for this hand number, to everybody with chips in seat order, with the doubled blinds posted around the first funded seat clockwise from the button index |
| `Deals.EveryDealByTheRules` | backend/app/game_engine/match.py:107-130 | so is every hand of every run, from the first on |
| `Deals.AmountsDouble` | backend/app/game_engine/match.py:33-41 | the schedule is the first interval's blinds, doubled once for each full interval before the hand |
| `BustedButton.EndedFields` | backend/app/game_engine/match.py:143-158 | after each hand that the match survives, hand number and button move on by one |
| `MatchState.SettleHandInv` | backend/app/game_engine/match.py:143-156 | settling a complete hand never fails, keeps the invariant, moves the button and loses exactly a quit's collected pots |
| `MatchState.QuitConservesIff` | backend/app/game_engine/match.py:135-138 | ending a hand by quitting conserves the match's chips if and only if nothing had been collected |
| `SampleRuns.EmptyTableReached` | backend/app/game_engine/pokerkit_adapter.py:240-288 | a run of a match that opens with 200 chips, goes all-in and ends by a quit with no chips left |
| `Coordination.MatchCoordinator.NextActiveButton` | backend/app/game_engine/match.py:168-173 | the loop finds the specified button seat |
| `Coordination.MatchCoordinator.StartHand` | backend/app/game_engine/match.py:107-130 | fields after starting a hand, including what a failure has already written |
| `Coordination.MatchCoordinator.ApplyAction` | backend/app/game_engine/match.py:132-133 | the hand moves as specified and nothing else changes |
| `Coordination.MatchCoordinator.QuitPlayer` | backend/app/game_engine/match.py:135-138 | only players of the hand can quit it; the settlement is recorded |
| `Coordination.MatchCoordinator.SettleHand` | backend/app/game_engine/match.py:143-156 | the deposit loop, the cleared hand, the button and the status are those of the specification |
| `ActorApply.ApplyAllOrNothing` | backend/app/game_engine/actor.py:336-455 | a refused command leaves the actor as it was; an accepted one adds exactly one version and one log entry, chips accounted for; nothing after the engine's step can fail |
| `ActorApply.StartInv` | backend/app/game_engine/actor.py:149-158 | starting a ready match deals the first hand at version 0 with an empty log |
| `ActorApply.FinishHandInv` | backend/app/game_engine/actor.py:365-441 | finishing a hand always succeeds: the next hand is dealt or the match is frozen |
| `ActorRuns.StepInv` | backend/app/game_engine/actor.py:166-246 | queue, in-flight map, processed map, futures, versions and logs stay consistent through every event |
| `ActorRuns.RunInv` | backend/app/game_engine/actor.py:307-334 | so they are at every moment of every run |
| `ActorTheorems.ExactlyOnce` | backend/app/game_engine/actor.py:166-183 | an id is in at most one of in-flight and processed, is applied at most once, and whoever waits for it can only get the one recorded result |
| `Answers.NobodyLeftWaiting` | backend/app/game_engine/actor.py:307-334 | whenever nothing is queued or on its way, nobody is left waiting |
| `Answers.TakenIsAnswered` | backend/app/game_engine/actor.py:307-334 | once a command was taken and is not on its way, its waiters have the result it was recorded with or the reason it was refused for, unless one of them cancelled |
| `Answers.CancelledByWaiter` | backend/app/game_engine/actor.py:307-334 | only a waiter cancels |
| `Answers.AnswersStay` | backend/app/game_engine/actor.py:307-334 | an answer once given never changes |
| `Answers.FirstComeFirstServed` | backend/app/game_engine/actor.py:307-334 | commands are met in the order they were submitted |
| `ActorTheorems.ReplaysForever` | backend/app/game_engine/actor.py:169-173 | after any further events an applied command is answered with its original result and another payload under its id is refused |
| `ActorTheorems.SubmitAnswers` | backend/app/game_engine/actor.py:166-183 | at every moment of a run a submission is answered with a result exactly when this very command was applied with it, joins the queue's copy exactly when this very command is queued, is queued exactly when its id is neither, and is refused otherwise |
| `ActorTheorems.VersionsSerialise` | backend/app/game_engine/actor.py:457-475 | the version counts applied commands, and of all commands carrying one version at most one is ever applied |
| `ActorTheorems.LogsRecordVersions` | backend/app/game_engine/actor.py:353-363 | the logs of all hands together carry versions 1, 2, 3, … and each is numbered from one |
| `ActorTheorems.LogsOnlyGrow` | backend/app/game_engine/actor.py:353-363 | version and hand number never go down, a hand's log only gets longer, and one version has one log |
| `ActorTheorems.StepEffect` | backend/app/game_engine/actor.py:307-334 | one event leaves the game alone or applies exactly one command |
| `ActorTheorems.ChipAccounting` | backend/app/game_engine/match.py:60-60 | at every moment of a match the players hold players times starting chips less exactly the pots open at quits, nobody below zero |
| `ActorTheorems.EliminatedForever` | backend/app/game_engine/match.py:113-115 | a player without chips never has any again and is never dealt in |
| `ActorTheorems.FixedHandsEnd` | backend/app/game_engine/match.py:175-181 | at most the fixed number of hands is settled, and after the last the match is complete |
| `ActorTheorems.CompleteIsFinal` | backend/app/game_engine/actor.py:271-288 | a complete match never moves again: snapshot frozen, every command refused |
| `ActorTheorems.TimerNeverPays` | backend/app/game_engine/actor.py:185-219 | whenever a timer's command is accepted the state is the one it was chosen in, and no stack at the table goes down |
| `ActorTheorems.OnlyOwnChips` | backend/app/game_engine/actor.py:336-455 | in every accepted command nobody pays but its own player, and that one no more than the action is worth |
| `ActorTheorems.FreeCheck` | backend/app/game_engine/actor.py:210-219 | the automatic action is a check exactly when checking is free and the account is not at showdown |
| `ActorTheorems.TimerAppliedIff` | backend/app/game_engine/actor.py:487-526 | a timer's command, met at any later moment of a run, is applied exactly when hand and version are still the timer's and the hand is on a betting street, and otherwise changes nothing |
| `ActorTheorems.AcceptedWhenEngineAccepts` | backend/app/game_engine/actor.py:336-350 | a command aimed at the current state is applied exactly when the engine takes it |
| `ActorLaws.AppliedIff` | backend/app/game_engine/actor.py:336-351 | a command is accepted exactly when whatever identity it carries is current, timers and quits carry it in full, only players quit, and the table takes it |
| `ActorLaws.ResultTells` | backend/app/game_engine/actor.py:336-455 | a result shows the snapshot, status, version and ids of the state it led to |
| `ActorLaws.LogTells` | backend/app/game_engine/actor.py:353-363 | each accepted command adds one log entry, naming player, action, the street that was on show and the new version |
| `ActorLaws.CompletedTells` | backend/app/game_engine/actor.py:336-455 | a finished hand is recorded with the number, blinds and stacks it was dealt with; each player leaves with the own final stack, and a frozen match shows those |
| `ActorLaws.MatchOverIff` | backend/app/game_engine/match.py:175-182 | a match is over exactly when no two players have chips left or the fixed number of hands is settled |
| `Timers.ActionTimerIs` | backend/app/game_engine/actor.py:487-501 | under a decision timeout there is a timer, of the current hand and version, exactly while somebody is to act |
| `Timers.OfflineTimerIff` | backend/app/game_engine/actor.py:221-245 | an offline timer runs exactly from going offline on one's own turn until coming back or the next command |
| `ActorState.ApplyKeepsQueue` | backend/app/game_engine/actor.py:336-455 | applying a command never touches the queue, the futures or the processed map |
| `MatchActors.MatchActor.Start` | backend/app/game_engine/actor.py:149-158 | the actor's fields after starting |
| `MatchActors.MatchActor.SubmitCommand` | backend/app/game_engine/actor.py:166-183 | replay, wait, refusal or enqueueing, as specified |
| `MatchActors.MatchActor.ChooseAutomatic` | backend/app/game_engine/actor.py:210-219 | the loop over legal actions finds the specified automatic action |
| `MatchActors.MatchActor.SubmitTimeout` | backend/app/game_engine/actor.py:185-208 | the timer's command is built from the current snapshot and submitted |
| `MatchActors.MatchActor.ScheduleActionTimer` | backend/app/game_engine/actor.py:487-514 | both timers are cancelled and one is armed for the current hand and version if somebody is to act |
| `MatchActors.MatchActor.ScheduleDisconnectTimeout` | backend/app/game_engine/actor.py:221-240 | armed only without a decision timeout and only for the account to act |
| `MatchActors.MatchActor.CancelDisconnectTimeout` | backend/app/game_engine/actor.py:242-245 | the timer goes if it was armed for that account, and stays otherwise |
| `MatchActors.MatchActor.ApplyCommand` | backend/app/game_engine/actor.py:336-455 | the in-place apply equals the specification, failures included |
| `MatchActors.MatchActor.TakeNext` | backend/app/game_engine/actor.py:307-334 | one queue step applies the oldest command and records its outcome, leaving a result to be delivered |
| `MatchActors.MatchActor.Record` | backend/app/game_engine/actor.py:307-334 | a command that was applied or refused is no longer pending; results are kept, failures go to the waiter |
| `MatchActors.MatchActor.Run` | backend/app/game_engine/actor.py:307-334 | the loop drains the queue exactly as repeated steps do |
| `Elo.SamplePowerIsLawful` | backend/app/ratings/calculator.py:62-63 | the laws assumed of the power function, growth included, can be met |
| `Elo.CalculateRatings` | backend/app/ratings/calculator.py:24-59 | the nested loops compute every participant's change, or refuse for exactly the listed reasons |
| `Elo.DeltasSumToZero` | backend/app/ratings/calculator.py:41-51 | for any number of players the exact changes sum to zero |
| `Elo.DeltaBounded` | backend/app/ratings/calculator.py:41-51 | nobody gains or loses a full k-factor |
| `Elo.DeltaPermutes` | backend/app/ratings/calculator.py:41-51 | a change depends on who takes part, not on the order |
| `Elo.BetterRankEarnsMore` | backend/app/ratings/calculator.py:62-71 | with equal ratings a strictly better rank earns strictly more |
| `Elo.UpsetPaysMore` | backend/app/ratings/calculator.py:62-63 | the same result against a higher-rated opponent is worth strictly more |
| `EloLaws.Duel` | backend/app/ratings/calculator.py:41-51 | against one opponent the change is the k-factor times result less expectation |
| `EloLaws.AverageOfDuels` | backend/app/ratings/calculator.py:41-51 | in a field it is the average of the duels against everybody else |
| `EloLaws.Odds` | backend/app/ratings/calculator.py:62-63 | the two expectations of a pair add up to one, in the ratio of ten to the power of their distance over 400 |
| `EloLaws.WinnerOfEquals` | backend/app/ratings/calculator.py:41-71 | whoever beats any number of equals gains half the k-factor |
| `MatchResults.RanksReverseStacks` | backend/app/realtime/room_handlers.py:797-811 | ranks run against stacks, tie exactly on equal stacks, and are one more than the number of players with more chips |
| `MatchResults.ResultsAreValid` | backend/app/realtime/room_handlers.py:814-818 | a finished match always yields results the ledger accepts, with those ranks |
| `MatchResults.StacksDecideRatings` | backend/app/realtime/room_handlers.py:797-818 | from stacks to ratings: changes sum to zero and among equals more chips earn strictly more |
| `Rounding.RoundNearest` | backend/app/ratings/service.py:391-392 | no integer is closer, and ties go away from zero |
| `Rounding.StoredChange` | backend/app/ratings/service.py:307-312 | stored after equals stored before plus stored change except exactly on ties across a sign change, then by one quantum |
| `RatingLedger.SettledKeepsChain` | backend/app/ratings/service.py:301-319 | settling keeps every account's rows chained from 1000, its peak the maximum and its count the number of rows |
| `RatingLedger.RowsOfMatch` | backend/app/ratings/service.py:290-319 | a match gives each player exactly one row and bystanders none |
| `RatingReplay.StepsCommute` | backend/app/ratings/service.py:265-319 | matches without a common player may be settled in either order |
| `RatingReplay.SortedReplayAgrees` | backend/app/ratings/service.py:345-388 | replaying the same matches sorted by start gives every account the same record and history |
| `RatingMatches.RowSettles` | backend/app/ratings/service.py:354-371 | reading a match back from its stored ranks gives the very results its final stacks were settled with |
| `RatingMatches.RebuildIsLiveIff` | backend/app/ratings/service.py:321-388 | a rebuild equals live settlement of exactly the matches it keeps, if and only if those sharing a player completed in the order they started |
| `RatingMatches.RebuildIsNoOpIff` | backend/app/ratings/service.py:321-388 | rebuilding after live settlement changes nothing visible if and only if every settled match is complete and began in the batch and those sharing a player completed in the order they started |
| `RatingOrder.SameBookSameOrder` | backend/app/ratings/service.py:345-388 | two replays of the same matches from a fresh book leave the same ratings and histories only if matches with a common player come in the same order |
| `RatingMatches.SeparateMatchesAgree` | backend/app/ratings/service.py:346-355 | matches that do not overlap in time for any common player do agree |
| `RatingMatches.StragglerLost` | backend/app/ratings/service.py:351-353 | a concrete match begun before the batch that live settlement counts and the rebuild drops |
| `RatingMatches.OverlapReordered` | backend/app/realtime/room_handlers.py:454-503 | two concrete overlapping matches, one left by a quitter, that a rebuild settles in the other order |
| `RatingMatches.VoidThenRebuild` | backend/app/matches/persistence.py:252-276 | voiding a match and rebuilding equals live settlement without it, if and only if the remaining matches sharing a player completed in the order they started |
| `RatingTheorems.RebuildIdempotent` | backend/app/ratings/service.py:321-388 | a second rebuild changes nothing at all |
| `RatingTheorems.RebuildChains` | backend/app/ratings/service.py:336-388 | in a rebuilt batch rows chain from 1000 and records match them |
| `RatingTheorems.PlayerOrderIrrelevant` | backend/app/ratings/service.py:356-371 | the rebuild may read the players of a match in any order |
| `RatingTheorems.OpeningIsInvisible` | backend/app/ratings/service.py:55-73 | opening accounts before, between or after matches changes nobody's rating |
| `RatingTheorems.ChangeRounding` | backend/app/ratings/service.py:372-388 | each row starts at the stored rating and misses before plus change by at most one quantum, with the exact condition |
| `RatingTheorems.TieRow` | backend/app/ratings/service.py:307-312 | at the sample power function, a concrete row of a settled match whose rating is one quantum above its before plus its change |
| `RatingTheorems.ReplayRounds` | backend/app/ratings/service.py:372-388 | so does every row of a replayed batch |
| `RatingTheorems.MatchDrift` | backend/app/ratings/service.py:301-319 | one match creates or destroys at most half a quantum per player |
| `RatingTheorems.PoolDrift` | backend/app/ratings/service.py:321-388 | over a whole batch the ratings add up to the initial ones give or take half a quantum per row |
| `RatingService.RatingBook.InitializeAccount` | backend/app/ratings/service.py:55-73 | an existing record is returned untouched, a missing one opened at 1000 |
| `RatingService.RatingBook.SettleMatch` | backend/app/ratings/service.py:265-319 | records and rows after settling are those of the step; refused results change nothing |
| `RatingService.RatingBook.RebuildCurrentBatch` | backend/app/ratings/service.py:321-388 | the loops leave the replayed book, or the old one if a match cannot be settled |
| `StatisticsReducer.Scan` | backend/app/statistics/reducer.py:122-137 | one pass finds who decided preflop, who first faced a raise and who then raised |
| `StatisticsReducer.ReduceHand` | backend/app/statistics/reducer.py:112-178 | the loops compute every player's additions or refuse for exactly the listed reasons |
| `StatisticsLaws.HandReads` | backend/app/statistics/reducer.py:112-178 | each counter of a hand in terms of its actions and players: voluntary money is a raise or calls that add up, a three-bet is a raise at the first choice after the first raise, decisions and folds are counted, and so on |
| `StatisticsLaws.EveryChoiceCounted` | backend/app/statistics/reducer.py:143-147 | all players together made every choice of the hand, once each |
| `StatisticsLaws.ReducesIff` | backend/app/statistics/reducer.py:112-118 | a hand reduces exactly when its players are different and every action is one of theirs |
| `StatisticsLaws.CountersCount` | backend/app/statistics/reducer.py:181-234 | after a rebuild every counter of every account, each position included, is the sum of those over the hands and results of the history |
| `StatisticsRebuild.ReduceMatch` | backend/app/statistics/reducer.py:181-196 | hands and results of a match are added up, failing at the first bad hand |
| `StatisticsRebuild.RebuildStatistics` | backend/app/statistics/reducer.py:199-204 | so are all matches of a history |
| `StatisticsAlgebra.MergeAllAssociates` | backend/app/statistics/reducer.py:207-234 | merging is associative, account by account and position by position |
| `StatisticsAlgebra.MergeAllCommutes` | backend/app/statistics/reducer.py:207-234 | and commutative |
| `StatisticsAlgebra.RebuildIsTotal` | backend/app/statistics/reducer.py:181-204 | a rebuild succeeds exactly when every hand reduces, and is then the sum of all additions |
| `StatisticsAlgebra.RebuildPermutes` | backend/app/statistics/reducer.py:199-204 | the order of matches does not matter |
| `StatisticsAlgebra.RebuildSplits` | backend/app/statistics/reducer.py:199-204 | a history may be rebuilt in two parts and merged |
| `StatisticsBounds.RebuildSound` | backend/app/statistics/reducer.py:155-178 | for every history the counters are ordered (three-bets within raises within voluntary plays within opportunities within hands, and so on) and positions add up to hands dealt |
| `StatisticsBounds.RatesAreProportions` | backend/app/statistics/reducer.py:83-109 | every displayed rate of a rebuilt history lies between 0 and 1 |
| `StatisticsBounds.RatioIs` | backend/app/statistics/reducer.py:237-238 | a rate exists exactly with opportunities, and times them gives what was taken |
| `PositionNames.PositionsDistinct` | backend/app/statistics/service.py:160-180 | the dealer is on the button, the next seats are the blinds, everybody else goes by the own seat number, and no two names are the same |
| `PositionNames.NamesKeptIff` | backend/app/statistics/service.py:182-216 | the players dealt in keep their position names at the larger table exactly when the seats after the button are dealt in and nobody else sits behind an empty seat |
| `PositionNames.LiveNameCloser` | backend/app/statistics/service.py:160-180 | leaving seats out only moves a player's name closer to the button |
| `HandRecords.PathsAgree` | backend/app/realtime/room_handlers.py:821-870 | stored hands always convert, live ones exactly when the button account was dealt in, and then both give the same hand but for positions |
| `HandRecords.BothTakeOver` | backend/app/realtime/room_handlers.py:821-870 | both conversions take over every player, action and pot as the hand left them |
| `HandRecords.SameHandIff` | backend/app/statistics/service.py:160-216 | and the very same hand exactly when its position names are kept |
| `HandRecords.LiveFailsOnBustedButton` | backend/app/realtime/room_handlers.py:826-826 | the live conversion of a finished hand fails exactly when the indexed button seat had no chips when it was dealt |
| `HandRecords.BustedSeatMovesPositions` | backend/app/statistics/service.py:182-216 | a concrete hand whose position names differ between the two paths |
| `HandAudit.RunAudited` | backend/app/game_engine/actor.py:353-388 | in every run the logs of completed hands only name players of the hand |
| `HandAudit.CompletedHandsReduce` | backend/app/realtime/room_handlers.py:665-678 | in every run a completed hand feeds the statistics unless its displayed button was not dealt in |
| `BustedButton.NextHandFailsIff` | backend/app/realtime/room_handlers.py:821-827 | in every run the hand after another fails the live conversion exactly when the player next to the other hand's button came out of it without chips |
| `BustedButton.QuitFailsNextHand` | backend/app/game_engine/match.py:143-158 | so it fails whenever that player quit and the match went on |
| `SampleRuns.QuitBreaksNextHand` | backend/app/realtime/room_handlers.py:821-827 | a run of three players in which that happens |
| `LiveStatistics.InterleavingIrrelevant` | backend/app/statistics/service.py:28-42 | hands and match ends of different matches may interleave in any way |
| `LiveAgreement.LiveIsRebuildPlus` | backend/app/statistics/service.py:28-68 | live totals are the rebuilt ones, up to positions, plus what matches that are not complete now have added |
| `LiveAgreement.LiveAgreesIff` | backend/app/statistics/service.py:28-68 | live and rebuilt counters agree but for positions if and only if matches that are not complete now counted nothing for anybody, and agree on everything if and only if besides every hand kept its position names |
| `LiveAgreement.VoidedStaysCounted` | backend/app/matches/persistence.py:252-276 | after a completed match is voided live and rebuilt counters differ for good |
| `StatisticsService.StatisticsRecords.ApplyHand` | backend/app/statistics/service.py:28-32 | records after a hand are the old ones merged with its additions; a refused hand changes nothing |
| `StatisticsService.StatisticsRecords.ApplyProfitableMatches` | backend/app/statistics/service.py:34-42 | records after a match end are the old ones merged with one match per player |
| `Connections.ConnectionRegistry.Replace` | backend/app/realtime/connections.py:9-24 | the maps stay inverse, the new pair is present, and only pairs touching either side are gone |
| `Connections.ConnectionRegistry.Release` | backend/app/realtime/connections.py:26-34 | exactly the pair of that connection goes; a superseded connection changes nothing |
| `Connections.AlwaysInverse` | backend/app/realtime/connections.py:9-34 | after any sequence of replacements and releases the maps are inverse |
| `Connections.SupersededStaysGone` | backend/app/realtime/connections.py:26-34 | a superseded connection never comes back by itself, and releasing it changes nothing |
| `Rooms.StepInv` | backend/app/rooms/registry.py:53-163 | every operation keeps index and membership in agreement, rooms within capacity and join orders distinct |
| `Rooms.RunInv` | backend/app/rooms/registry.py:48-163 | so after any sequence of operations an account is indexed to a room exactly when it is a member there |
| `Rooms.RebindInv` | backend/app/rooms/registry.py:87-101 | a rebind never meets a dangling index |
| `Rooms.HostContinues` | backend/app/rooms/registry.py:119-129 | a member host stays a member while anybody is there, and changes only by leaving, to the longest-standing member |
| `Rooms.HostUntilEmpty` | backend/app/rooms/registry.py:119-129 | in a run, from when the host is a member until the room is empty |
| `Rooms.LeavingIsDetermined` | backend/app/rooms/registry.py:125-128 | the heir is unique |
| `RoomHistories.ReadyIff` | backend/app/rooms/registry.py:111-156 | a member is ready exactly when it said so with no reset, withdrawal, departure or closing since |
| `RoomHistories.SitsIff` | backend/app/rooms/registry.py:64-149 | an account is in a room exactly when it was let in and has neither left nor seen the room closed since |
| `RoomHistories.JoinOkIff` | backend/app/rooms/registry.py:64-79 | a join succeeds exactly when the room is open, the account in no other one, and a place its own or free |
| `RoomHistories.OpenStep` | backend/app/rooms/registry.py:53-149 | a room opens as asked for, keeps its capacity, and shuts only when closed, or tidied up empty |
| `RoomService.RoomRegistry.Ensure` | backend/app/rooms/registry.py:53-62 | an existing room is left alone |
| `RoomService.RoomRegistry.JoinRoom` | backend/app/rooms/registry.py:64-85 | joining, rejoining and each refusal, as specified |
| `RoomService.RoomRegistry.RebindSid` | backend/app/rooms/registry.py:87-101 | the member's socket is replaced in the room the index names |
| `RoomService.RoomRegistry.DisconnectSid` | backend/app/rooms/registry.py:103-109 | the search marks one matching member offline, and nothing if there is none |
| `RoomService.RoomRegistry.SetReadiness` | backend/app/rooms/registry.py:111-117 | the member's readiness alone changes, or the refusal says why |
| `RoomService.RoomRegistry.FirstJoined` | backend/app/rooms/registry.py:125-128 | the search for the smallest join order finds the longest-standing member |
| `RoomService.RoomRegistry.Leave` | backend/app/rooms/registry.py:119-129 | the member and its index entry go, and a leaving host hands over |
| `RoomService.RoomRegistry.Close` | backend/app/rooms/registry.py:142-149 | the room and every index entry pointing at it go |
| `RoomService.RoomRegistry.RemoveIfEmpty` | backend/app/rooms/registry.py:137-140 | only an empty room is closed |
| `RoomService.RoomRegistry.ResetWaitingState` | backend/app/rooms/registry.py:151-156 | every member ends not ready and unseated |
| `RealtimeServer.OnlineIsExactIff` | backend/app/realtime/server.py:37-79 | at every moment of a run a member is shown as connected exactly while its account has a socket, if and only if every join that succeeds comes from the socket current then |
| `RealtimeServer.JoinKeepsExactIff` | backend/app/realtime/room_handlers.py:112-146 | a successful join keeps that display exact if and only if it comes from the current socket |
| `RealtimeServer.LateDisconnectIsHarmless` | backend/app/realtime/server.py:68-79 | a superseded socket's disconnect, however late, changes neither registry |
| `RealtimeServer.StaleJoinStaysOnline` | backend/app/realtime/room_handlers.py:143-146 | a concrete run after which an account without any socket is shown as connected |
| `SnapshotStore.AlwaysCoherent` | frontend/src/store/game.ts:183-245 | a held private snapshot always belongs to the match and hand on show and is never ahead of it |
| `SnapshotStore.VersionNeverDrops` | frontend/src/store/game.ts:187-195 | between any two moments with one match on show throughout its version does not go down |
| `SnapshotStore.VersionDropsAcrossMatches` | frontend/src/store/game.ts:193-196 | it can after another match was shown in between |
| `SnapshotStore.ShowsNewest` | frontend/src/store/game.ts:183-245 | the shown snapshot is a delivered one of the newest version |
| `SnapshotStore.ReorderingConverges` | frontend/src/store/game.ts:183-245 | any reordering or duplication of one match's snapshots ends showing the same newest table |
| `SnapshotStore.PrivateConverges` | frontend/src/store/game.ts:218-245 | so does the private view when a private snapshot of the newest version was delivered |
| `SnapshotStore.PrivateOrderIff` | frontend/src/store/game.ts:183-245 | no reordering or repetition changes the private view if and only if one of the newest version was delivered or none of the newest hand |
| `SnapshotStore.PrivateDependsOnOrder` | frontend/src/store/game.ts:198-202 | otherwise the order can decide whether hole cards are held |
| `SnapshotStore.PendingUntilReleased` | frontend/src/store/game.ts:203-208 | a pending action stays pending exactly until a rejection, a reset or the taking of a newer snapshot of its match |
| `SnapshotStore.PendingIff` | frontend/src/store/game.ts:203-208 | an action is pending exactly when it was submitted while none was, and nothing released it since |
| `SnapshotStore.ResultOnDisplay` | frontend/src/store/game.ts:210-215 | a hand result is on display exactly when it was announced and since then neither expired, replaced nor reset, and no snapshot of another match was taken |
| `SoundCues.DeriveSoundCues` | frontend/src/sound/derive.ts:64-140 | the loops emit the specified cues in order, each key once |
| `SoundCues.Collector.Add` | frontend/src/sound/derive.ts:90-96 | a key already offered is not emitted again |
| `SoundRuns.NoKeyTwice` | frontend/src/sound/derive.ts:88-96 | one pair of snapshots announces nothing twice |
| `SoundRuns.CuesAnnounce` | frontend/src/sound/derive.ts:69-140 | every key names something that changed between the two snapshots |
| `SoundLaws.CuesComplete` | frontend/src/sound/derive.ts:64-140 | everything new between two consecutive snapshots is announced, nothing else is, and each under its own sound; any other pair is silent |
| `SoundLaws.SoundIs` | frontend/src/sound/derive.ts:20-48 | the sound of an action by kind, amount, chips left and earlier bets on the street |
| `SoundRuns.AnnouncedOnce` | frontend/src/sound/derive.ts:64-140 | along a run of growing snapshots every action, card, hand and turn key is emitted at most once |
| `SoundRuns.CuesOncePerMatch` | frontend/src/sound/derive.ts:64-140 | so it is for whatever order and repetition a match's snapshots arrive in at the store |
| `SoundRuns.RepeatsIff` | frontend/src/sound/derive.ts:64-140 | along such a run a key is emitted at two steps exactly when it is a countdown key and at both the hero is to act in the next version with those seconds left |
| `SoundRuns.TickRepeats` | frontend/src/sound/derive.ts:129-137 | a concrete run, checked to the flop, in which a countdown key is emitted twice |
| `ServedSnapshots.ServedIsOneStory` | backend/app/game_engine/actor.py:271-288 | the snapshots served by any run of the actor belong to one match, show one table per version and hands in order |
| `ServedSnapshots.ServedIsHonest` | backend/app/game_engine/actor.py:353-388 | and grow with the version, given that boards grow within a hand |
| `ServedSnapshots.ClientsConverge` | frontend/src/store/game.ts:183-245 | two clients of a run that received the same snapshots in any order and number show the same table, and hold the same cards exactly under the condition above |
| `ServedSnapshots.AnnouncedOncePerRun` | frontend/src/sound/derive.ts:64-140 | each action, card, hand and turn of a run is announced at most once, in whatever order its snapshots arrive |

## Left out

- PokerKit itself: hand evaluation, side pots, dealing, hole cards and boards are behind the contract `PokerHand.Lawful`; the aggregation of its operation log into contributions and pots (`settlement`, non-quit branch) is part of that record.
- Private hand snapshots, legal-action amounts beyond what the actor reads, and fixed-deck dealing.
- Deadlines, the clock and sleeping: timers carry only the hand and version they were armed with and may fire at any later moment.
- MatchActors.MatchActor.ScheduleActionTimer: the deadline set together with the timer is not in the state.
- MatchActors.MatchActor.ScheduleDisconnectTimeout: the deadline set together with the timer is not in the state.
- MatchActors.MatchActor.CancelDisconnectTimeout: the deadline cleared together with the timer is not in the state.
- Closing an actor, its shutdown sentinel and the automatic-result handler; a result is delivered in a step of its own.
- Cancelling a waiter: modelled as cancelling the shared future, as awaiting it directly does.
- Hand and match ids: fresh identifiers are numbers; uniqueness of random identifiers is assumed.
- Database sessions, row locks and transactions: each service call is one atomic step that undoes itself on failure.
- Elo.CalculateRatings: floating point is replaced by reals and an abstract power function, so finiteness checks and rounding of intermediate results are not modelled.
- RatingService.RatingBook.SettleMatch: column widths of stored ratings and ranks are not modelled.
- Leaderboards, batch creation and account status: queries and status updates with easier invariants.
- The stored reducer version of statistics records, and the choice of matches that count: histories contain the counted ones.
- LiveAgreement.LiveAgreesIff: hand rows are read back in the order they were written; the settlement's payoffs are assumed to have one entry per player.
- Rooms handed out by the registry are values here; the source shares one mutable object with its callers. Seats assigned when a match starts are not modelled.
- Event payloads, emission, passwords, invitations, chat, emotes and lobby notifications.
- Awaits inside connect and join handlers beyond the order in which their registry steps happen.
- How a snapshot is put together: players, board and hole cards in it are functions of the game it was taken in, and only the time left depends on the moment.
- Settlement sounds, the audio engine and everything rendered.
- ServedSnapshots.AnnouncedOncePerRun: that boards only grow within a hand is a premise about PokerKit.
