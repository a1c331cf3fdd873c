/** Which cues a pair of snapshots gives, and how each of them sounds. */
module SoundLaws {
  import opened Prelude
  import opened PokerHand
  import opened SnapshotStore
  import opened SoundCues
  import opened SoundRuns

  // ---------------------------------------------------------------------------------------------
  // New actions
  // ---------------------------------------------------------------------------------------------

  /** Numbered beyond every earlier action. */
  predicate IsNew(earlier: seq<TableAction>, no: int) {
    no >= 0 && forall i :: 0 <= i < |earlier| ==> earlier[i].sequenceNo < no
  }

  lemma {:induction false} NewIff(earlier: seq<TableAction>, no: int)
    ensures no > MaxSequence(earlier) <==> IsNew(earlier, no)
  {
    if earlier != [] {
      var n := |earlier| - 1;
      NewIff(earlier[..n], no);
      assert forall i :: 0 <= i < n ==> earlier[..n][i] == earlier[i];
    }
  }

  lemma {:induction false} BeyondHas(actions: seq<TableAction>, bound: int, a: TableAction)
    ensures a in Beyond(actions, bound) <==> a in actions && a.sequenceNo > bound
    ensures a in UpTo(actions, bound) <==> a in actions && a.sequenceNo <= bound
  {
    if actions != [] {
      var n := |actions| - 1;
      BeyondHas(actions[..n], bound, a);
      assert actions == actions[..n] + [actions[n]];
    }
  }

  lemma SortedHas(actions: seq<TableAction>, a: TableAction)
    ensures a in Sorted(actions) <==> a in actions
  {
    SortedSame(actions);
    assert a in multiset(Sorted(actions)) <==> a in multiset(actions);
  }

  function Newer(previous: Snapshot, next: Snapshot): seq<TableAction> {
    Sorted(Beyond(next.actions, MaxSequence(previous.actions)))
  }

  function Context(previous: Snapshot, next: Snapshot): seq<TableAction> {
    UpTo(next.actions, MaxSequence(previous.actions)) + Newer(previous, next)
  }

  lemma NewerHas(previous: Snapshot, next: Snapshot, a: TableAction)
    ensures a in Newer(previous, next) <==> a in next.actions && IsNew(previous.actions, a.sequenceNo)
    ensures a in Context(previous, next) <==> a in next.actions
  {
    hide Sorted, Beyond, UpTo, MaxSequence;
    var bound := MaxSequence(previous.actions);
    BeyondHas(next.actions, bound, a);
    SortedHas(Beyond(next.actions, bound), a);
    NewIff(previous.actions, a.sequenceNo);
  }

  // ---------------------------------------------------------------------------------------------
  // How an action sounds
  // ---------------------------------------------------------------------------------------------

  /** The first entry for the account is all-in or without chips. */
  predicate Broke(players: seq<TablePlayer>, a: AccountId) {
    exists i :: 0 <= i < |players| && players[i].accountId == a && (players[i].allIn || players[i].stack == 0)
                && forall j :: 0 <= j < i ==> players[j].accountId != a
  }

  lemma {:induction false} BrokeIff(players: seq<TablePlayer>, a: AccountId)
    ensures var found := Find(players, a);
            Broke(players, a) <==> found.Some? && (found.value.allIn || found.value.stack == 0)
  {
    if players != [] {
      var rest := players[1..];
      assert forall i :: 0 <= i < |rest| ==> rest[i] == players[i + 1];
      BrokeIff(rest, a);
      if players[0].accountId != a {
        if Broke(rest, a) {
          var i :| 0 <= i < |rest| && rest[i].accountId == a && (rest[i].allIn || rest[i].stack == 0)
                   && forall j :: 0 <= j < i ==> rest[j].accountId != a;
          assert players[i + 1] == rest[i];
          forall j | 0 <= j < i + 1 ensures players[j].accountId != a {
            assert j > 0 ==> players[j] == rest[j - 1];
          }
        }
        if Broke(players, a) {
          var i :| 0 <= i < |players| && players[i].accountId == a && (players[i].allIn || players[i].stack == 0)
                   && forall j :: 0 <= j < i ==> players[j].accountId != a;
          assert rest[i - 1] == players[i];
        }
      }
    }
  }

  /** Somebody bet on that street before. */
  predicate BetBefore(actions: seq<TableAction>, a: TableAction) {
    exists b :: b in actions && b.sequenceNo < a.sequenceNo && b.street == a.street && b.action.BetOrRaise?
  }

  /** The sound of an action, or none for showing and mucking. */
  function Sound(s: Snapshot, a: TableAction): Option<SoundCue> {
    match a.action
    case Fold => Some(FoldCue)
    case CheckOrCall =>
      Some(if Broke(s.players, a.accountId) then AllInCue else if a.amount == Some(0) then CheckCue else CallCue)
    case BetOrRaise =>
      Some(if Broke(s.players, a.accountId) then AllInCue else if BetBefore(s.actions, a) then RaiseCue else BetCue)
    case Show => None
    case Muck => None
  }

  lemma SoundIs(previous: Snapshot, next: Snapshot, a: TableAction)
    ensures ActionCue(next, a, Context(previous, next)) == Sound(next, a)
  {
    hide Context, Find;
    BrokeIff(next.players, a.accountId);
    var context := Context(previous, next);
    forall b ensures b in context <==> b in next.actions {
      NewerHas(previous, next, b);
    }
    if BetBefore(next.actions, a) {
      var b :| b in next.actions && b.sequenceNo < a.sequenceNo && b.street == a.street && b.action.BetOrRaise?;
      assert b in context;
    }
    hide Broke;
  }

  // ---------------------------------------------------------------------------------------------
  // Which cues there are
  // ---------------------------------------------------------------------------------------------

  lemma {:induction false} ActionCuesHave(s: Snapshot, actions: seq<TableAction>, context: seq<TableAction>, cue: DerivedCue)
    ensures cue in ActionCues(s, actions, context) <==>
            exists a :: a in actions && ActionCue(s, a, context) == Some(cue.cue)
                        && cue.key == ActionKey(s.matchId, s.handId, a.sequenceNo)
  {
    hide ActionCue;
    if actions != [] {
      var n := |actions| - 1;
      ActionCuesHave(s, actions[..n], context, cue);
      assert actions == actions[..n] + [actions[n]];
    }
  }

  lemma {:induction false} BoardCuesHave(s: Snapshot, from: nat, to: nat, cue: DerivedCue)
    requires from <= to <= |s.board|
    ensures cue in BoardCues(s, from, to) <==>
            exists index: nat :: from <= index < to && cue == DerivedCue(DealCardCue, DealCardKey(s.matchId, s.handId, index, s.board[index]))
  {
    if from < to {
      BoardCuesHave(s, from, to - 1, cue);
    }
  }

  /** A new action that has a sound. */
  predicate ActionAnnounced(previous: Snapshot, next: Snapshot, no: int, sound: SoundCue) {
    IsNew(previous.actions, no) && exists a :: a in next.actions && a.sequenceNo == no && Sound(next, a) == Some(sound)
  }

  /** What there is to announce between two consecutive snapshots of one hand, and how it sounds. */
  predicate ToAnnounce(previous: Snapshot, next: Snapshot, hero: AccountId, cue: DerivedCue) {
    && cue.key.matchId == next.matchId && cue.key.handId == next.handId
    && match cue.key
       case NewHandKey(_, _) => false
       case ActionKey(_, _, no) => ActionAnnounced(previous, next, no, cue.cue)
       case DealCardKey(_, _, index, card) =>
         && previous.board < next.board && |previous.board| <= index < |next.board|
         && card == next.board[index] && cue.cue == DealCardCue
       case YourTurnKey(_, _, version) =>
         previous.actor != Some(hero) && next.actor == Some(hero) && version == next.version && cue.cue == YourTurnCue
       case TimerTickKey(_, _, seconds) =>
         next.actor == Some(hero) && next.remaining == Some(seconds) && 1 <= seconds <= 5 && cue.cue == TimerTickCue
  }

  lemma ActionsAnnounced(previous: Snapshot, next: Snapshot, cue: DerivedCue)
    ensures cue in ActionCues(next, Newer(previous, next), Context(previous, next)) <==>
            && cue.key.ActionKey? && cue.key.matchId == next.matchId && cue.key.handId == next.handId
            && ActionAnnounced(previous, next, cue.key.sequenceNo, cue.cue)
  {
    hide Newer, Context, ActionCue, ActionCues, Sound, IsNew;
    ActionCuesHave(next, Newer(previous, next), Context(previous, next), cue);
    forall a
      ensures a in Newer(previous, next) <==> a in next.actions && IsNew(previous.actions, a.sequenceNo)
      ensures ActionCue(next, a, Context(previous, next)) == Sound(next, a)
    {
      NewerHas(previous, next, a);
      SoundIs(previous, next, a);
    }
  }

  lemma CandidatesAre(previous: Snapshot, next: Snapshot, hero: AccountId, cue: DerivedCue)
    ensures cue in Candidates(previous, next, hero) <==> ToAnnounce(previous, next, hero, cue)
  {
    ActionsAnnounced(previous, next, cue);
    if previous.board < next.board {
      BoardCuesHave(next, |previous.board|, |next.board|, cue);
    }
    var actions := ActionCues(next, Newer(previous, next), Context(previous, next));
    var cards := if previous.board < next.board then BoardCues(next, |previous.board|, |next.board|) else [];
    assert Candidates(previous, next, hero) == actions + cards + TurnCues(previous, next, hero) + TimerCues(next, hero);
    hide Candidates, ActionCues, BoardCues, ActionAnnounced, Newer, Context;
  }

  lemma {:induction false} DedupHas(cues: seq<DerivedCue>)
    ensures forall cue :: cue in Dedup(cues) ==> cue in cues
  {
    if cues != [] {
      DedupHas(cues[..|cues| - 1]);
      assert cues == cues[..|cues| - 1] + [cues[|cues| - 1]];
    }
  }

  lemma KeyOfCue(cues: seq<DerivedCue>, cue: DerivedCue)
    requires cue in cues
    ensures cue.key in Keys(cues)
  {
    var i :| 0 <= i < |cues| && cues[i] == cue;
    assert cues[i].key in Keys(cues);
  }

  /**
   * Between two snapshots of consecutive versions: a new hand is announced and nothing else; within a hand every
   * cue is something to announce under its own sound, and everything there is to announce is announced. Any
   * other pair is silent.
   */
  lemma CuesComplete(previous: Snapshot, next: Snapshot, hero: AccountId)
    ensures var cues := Cues(Some(previous), next, hero);
            if previous.matchId != next.matchId || next.version != previous.version + 1 then cues == []
            else if previous.handId != next.handId then
              cues == [DerivedCue(NewHandCue, NewHandKey(next.matchId, next.handId))]
            else
              && (forall cue :: cue in cues ==> ToAnnounce(previous, next, hero, cue))
              && (forall cue :: ToAnnounce(previous, next, hero, cue) ==> cue.key in Keys(cues))
  {
    hide ToAnnounce, Candidates, Keys, Dedup;
    var candidates := Candidates(previous, next, hero);
    DedupKeys(candidates);
    DedupHas(candidates);
    forall cue
      ensures cue in candidates <==> ToAnnounce(previous, next, hero, cue)
      ensures cue in candidates ==> cue.key in Keys(candidates)
    {
      CandidatesAre(previous, next, hero, cue);
      if cue in candidates {
        KeyOfCue(candidates, cue);
      }
    }
  }
}
