/** Sound cues derived from two consecutive snapshots, each under a key that names what it announces. */
module SoundCues {
  import opened Prelude
  import opened PokerHand
  import opened SnapshotStore

  datatype SoundCue =
    | NewHandCue | DealCardCue | CheckCue | CallCue | BetCue | RaiseCue | FoldCue | AllInCue | YourTurnCue | TimerTickCue

  datatype CueKey =
    | NewHandKey(matchId: nat, handId: nat)
    | ActionKey(matchId: nat, handId: nat, sequenceNo: int)
    | DealCardKey(matchId: nat, handId: nat, index: nat, card: Card)
    | YourTurnKey(matchId: nat, handId: nat, version: nat)
    | TimerTickKey(matchId: nat, handId: nat, seconds: int)

  datatype DerivedCue = DerivedCue(cue: SoundCue, key: CueKey)

  // ---------------------------------------------------------------------------------------------
  // Specification
  // ---------------------------------------------------------------------------------------------

  /** All in, as far as the snapshot lists the player. */
  predicate OutOfChips(s: Snapshot, a: AccountId) {
    var found := Find(s.players, a);
    found.Some? && (found.value.allIn || found.value.stack == 0)
  }

  function Find(players: seq<TablePlayer>, a: AccountId): Option<TablePlayer> {
    if players == [] then None
    else if players[0].accountId == a then Some(players[0])
    else Find(players[1..], a)
  }

  predicate RaisedEarlier(actions: seq<TableAction>, a: TableAction) {
    exists i :: 0 <= i < |actions| && actions[i].sequenceNo < a.sequenceNo && actions[i].street == a.street
                && actions[i].action.BetOrRaise?
  }

  function ActionCue(s: Snapshot, a: TableAction, context: seq<TableAction>): Option<SoundCue> {
    match a.action
    case Fold => Some(FoldCue)
    case CheckOrCall =>
      Some(if OutOfChips(s, a.accountId) then AllInCue else if a.amount == Some(0) then CheckCue else CallCue)
    case BetOrRaise =>
      Some(if OutOfChips(s, a.accountId) then AllInCue else if RaisedEarlier(context, a) then RaiseCue else BetCue)
    case _ => None
  }

  /** The highest sequence number, or -1. */
  function MaxSequence(actions: seq<TableAction>): int {
    if actions == [] then -1 else Max(MaxSequence(actions[..|actions| - 1]), actions[|actions| - 1].sequenceNo)
  }

  function UpTo(actions: seq<TableAction>, bound: int): seq<TableAction> {
    if actions == [] then []
    else
      var last := actions[|actions| - 1];
      UpTo(actions[..|actions| - 1], bound) + if last.sequenceNo <= bound then [last] else []
  }

  function Beyond(actions: seq<TableAction>, bound: int): seq<TableAction> {
    if actions == [] then []
    else
      var last := actions[|actions| - 1];
      Beyond(actions[..|actions| - 1], bound) + if last.sequenceNo > bound then [last] else []
  }

  function Insert(sorted: seq<TableAction>, a: TableAction): seq<TableAction> {
    if sorted == [] || sorted[|sorted| - 1].sequenceNo <= a.sequenceNo then sorted + [a]
    else Insert(sorted[..|sorted| - 1], a) + [sorted[|sorted| - 1]]
  }

  /** Stable sort by sequence number. */
  function Sorted(actions: seq<TableAction>): seq<TableAction> {
    if actions == [] then [] else Insert(Sorted(actions[..|actions| - 1]), actions[|actions| - 1])
  }

  function ActionCues(s: Snapshot, actions: seq<TableAction>, context: seq<TableAction>): seq<DerivedCue> {
    if actions == [] then []
    else
      var last := actions[|actions| - 1];
      var cue := ActionCue(s, last, context);
      ActionCues(s, actions[..|actions| - 1], context)
      + if cue.Some? then [DerivedCue(cue.value, ActionKey(s.matchId, s.handId, last.sequenceNo))] else []
  }

  function BoardCues(s: Snapshot, from: nat, to: nat): seq<DerivedCue>
    requires from <= to <= |s.board|
  {
    if from == to then []
    else BoardCues(s, from, to - 1) + [DerivedCue(DealCardCue, DealCardKey(s.matchId, s.handId, to - 1, s.board[to - 1]))]
  }

  function TurnCues(previous: Snapshot, next: Snapshot, hero: AccountId): seq<DerivedCue> {
    if previous.actor != Some(hero) && next.actor == Some(hero)
    then [DerivedCue(YourTurnCue, YourTurnKey(next.matchId, next.handId, next.version))] else []
  }

  function TimerCues(next: Snapshot, hero: AccountId): seq<DerivedCue> {
    if next.actor == Some(hero) && next.remaining.Some? && 1 <= next.remaining.value <= 5
    then [DerivedCue(TimerTickCue, TimerTickKey(next.matchId, next.handId, next.remaining.value))] else []
  }

  function Keys(cues: seq<DerivedCue>): set<CueKey> {
    set i | 0 <= i < |cues| :: cues[i].key
  }

  lemma KeysAppend(xs: seq<DerivedCue>, ys: seq<DerivedCue>)
    ensures Keys(xs + ys) == Keys(xs) + Keys(ys)
  {
    var all := xs + ys;
    forall k | k in Keys(xs) ensures k in Keys(all) {
      var i :| 0 <= i < |xs| && xs[i].key == k;
      assert all[i].key == k;
    }
    forall k | k in Keys(ys) ensures k in Keys(all) {
      var i :| 0 <= i < |ys| && ys[i].key == k;
      assert all[|xs| + i].key == k;
    }
  }

  lemma KeysOne(cues: seq<DerivedCue>, cue: DerivedCue)
    ensures Keys(cues + [cue]) == Keys(cues) + {cue.key}
  {
    KeysAppend(cues, [cue]);
    assert [cue][0] == cue;
    assert Keys([cue]) == {cue.key};
  }

  /** Of several cues with one key only the first is kept. */
  function Dedup(cues: seq<DerivedCue>): seq<DerivedCue> {
    if cues == [] then []
    else
      var kept := Dedup(cues[..|cues| - 1]);
      if cues[|cues| - 1].key in Keys(kept) then kept else kept + [cues[|cues| - 1]]
  }

  function Candidates(previous: Snapshot, next: Snapshot, hero: AccountId): seq<DerivedCue> {
    var bound := MaxSequence(previous.actions);
    var newer := Sorted(Beyond(next.actions, bound));
    ActionCues(next, newer, UpTo(next.actions, bound) + newer)
    + (if previous.board < next.board then BoardCues(next, |previous.board|, |next.board|) else [])
    + TurnCues(previous, next, hero)
    + TimerCues(next, hero)
  }

  function Cues(previous: Option<Snapshot>, next: Snapshot, hero: AccountId): seq<DerivedCue> {
    if previous.None? || previous.value.matchId != next.matchId || next.version <= previous.value.version then []
    else if next.version - previous.value.version > 1 then []
    else if previous.value.handId != next.handId then [DerivedCue(NewHandCue, NewHandKey(next.matchId, next.handId))]
    else Dedup(Candidates(previous.value, next, hero))
  }

  // ---------------------------------------------------------------------------------------------
  // The loops
  // ---------------------------------------------------------------------------------------------

  /** Cues collected so far, each key at most once. */
  class Collector {
    var result: seq<DerivedCue>
    var seen: set<CueKey>
    ghost var offered: seq<DerivedCue>

    ghost predicate Valid()
      reads this
    {
      result == Dedup(offered) && seen == Keys(result)
    }

    constructor ()
      ensures Valid() && offered == []
    {
      result, seen, offered := [], {}, [];
    }

    method Add(cue: DerivedCue)
      requires Valid()
      modifies this
      ensures Valid() && offered == old(offered) + [cue]
    {
      assert (offered + [cue])[..|offered|] == offered;
      if cue.key !in seen {
        KeysOne(result, cue);
        seen := seen + {cue.key};
        result := result + [cue];
      }
      offered := offered + [cue];
    }
  }

  method HighestSequence(actions: seq<TableAction>) returns (max: int)
    ensures max == MaxSequence(actions)
  {
    max := -1;
    for i := 0 to |actions|
      invariant max == MaxSequence(actions[..i])
    {
      max := Max(max, actions[i].sequenceNo);
      assert actions[..i + 1][..i] == actions[..i];
    }
    assert actions[..|actions|] == actions;
  }

  method DeriveSoundCues(previous: Option<Snapshot>, next: Snapshot, hero: AccountId) returns (result: seq<DerivedCue>)
    ensures result == Cues(previous, next, hero)
  {
    if previous.None? || previous.value.matchId != next.matchId || next.version <= previous.value.version {
      return [];
    }
    var before := previous.value;
    if next.version - before.version > 1 {
      return [];
    }
    if before.handId != next.handId {
      return [DerivedCue(NewHandCue, NewHandKey(next.matchId, next.handId))];
    }
    var bound := HighestSequence(before.actions);
    var newer := Sorted(Beyond(next.actions, bound));
    var context := UpTo(next.actions, bound) + newer;
    hide Sorted, Beyond, UpTo, MaxSequence, ActionCue, Dedup, Keys, Find;
    var collector := new Collector();
    for i := 0 to |newer|
      invariant collector.Valid() && collector.offered == ActionCues(next, newer[..i], context)
    {
      var cue := ActionCue(next, newer[i], context);
      assert newer[..i + 1][..i] == newer[..i];
      if cue.Some? {
        collector.Add(DerivedCue(cue.value, ActionKey(next.matchId, next.handId, newer[i].sequenceNo)));
      }
    }
    assert newer[..|newer|] == newer;
    ghost var actions := collector.offered;
    if |next.board| > |before.board| {
      if before.board <= next.board {
        for index := |before.board| to |next.board|
          invariant collector.Valid() && collector.offered == actions + BoardCues(next, |before.board|, index)
        {
          collector.Add(DerivedCue(DealCardCue, DealCardKey(next.matchId, next.handId, index, next.board[index])));
        }
      }
    }
    ghost var cards := if before.board < next.board then BoardCues(next, |before.board|, |next.board|) else [];
    assert collector.offered == actions + cards;
    if before.actor != Some(hero) && next.actor == Some(hero) {
      collector.Add(DerivedCue(YourTurnCue, YourTurnKey(next.matchId, next.handId, next.version)));
    }
    assert collector.offered == actions + cards + TurnCues(before, next, hero);
    if next.actor == Some(hero) {
      if next.remaining.Some? && 1 <= next.remaining.value <= 5 {
        collector.Add(DerivedCue(TimerTickCue, TimerTickKey(next.matchId, next.handId, next.remaining.value)));
      }
    }
    assert collector.offered == actions + cards + TurnCues(before, next, hero) + TimerCues(next, hero);
    result := collector.result;
  }
}
