/** Cues over a whole run of shown snapshots, and over whatever order the server's snapshots arrive in. */
module SoundRuns {
  import opened Prelude
  import opened PokerHand
  import opened SnapshotStore
  import opened SoundCues

  // ---------------------------------------------------------------------------------------------
  // One step
  // ---------------------------------------------------------------------------------------------

  lemma {:induction false} DedupKeys(cues: seq<DerivedCue>)
    ensures Keys(Dedup(cues)) == Keys(cues)
  {
    if cues != [] {
      var n := |cues| - 1;
      DedupKeys(cues[..n]);
      assert cues == cues[..n] + [cues[n]];
      KeysOne(cues[..n], cues[n]);
      KeysOne(Dedup(cues[..n]), cues[n]);
    }
  }

  predicate DistinctKeys(cues: seq<DerivedCue>) {
    forall i, j :: 0 <= i < j < |cues| ==> cues[i].key != cues[j].key
  }

  lemma {:induction false} DedupDistinct(cues: seq<DerivedCue>)
    ensures DistinctKeys(Dedup(cues))
  {
    if cues != [] {
      var n := |cues| - 1;
      DedupDistinct(cues[..n]);
      var kept := Dedup(cues[..n]);
      assert forall i :: 0 <= i < |kept| ==> kept[i].key in Keys(kept);
    }
  }

  /** One pair of snapshots never announces the same thing twice. */
  lemma NoKeyTwice(previous: Option<Snapshot>, next: Snapshot, hero: AccountId)
    ensures DistinctKeys(Cues(previous, next, hero))
  {
    if previous.Some? {
      DedupDistinct(Candidates(previous.value, next, hero));
    }
  }

  predicate Listed(actions: seq<TableAction>, sequenceNo: int) {
    exists i :: 0 <= i < |actions| && actions[i].sequenceNo == sequenceNo
  }

  lemma {:induction false} MaxIsBound(actions: seq<TableAction>, sequenceNo: int)
    requires Listed(actions, sequenceNo)
    ensures sequenceNo <= MaxSequence(actions)
  {
    var n := |actions| - 1;
    if actions[n].sequenceNo != sequenceNo {
      var i :| 0 <= i < |actions| && actions[i].sequenceNo == sequenceNo;
      assert actions[..n][i].sequenceNo == sequenceNo;
      MaxIsBound(actions[..n], sequenceNo);
    }
  }

  lemma {:induction false} BeyondListed(actions: seq<TableAction>, bound: int)
    ensures forall a :: a in Beyond(actions, bound) ==> a in actions && a.sequenceNo > bound
  {
    if actions != [] {
      BeyondListed(actions[..|actions| - 1], bound);
      assert actions == actions[..|actions| - 1] + [actions[|actions| - 1]];
    }
  }

  lemma {:induction false} InsertSame(sorted: seq<TableAction>, a: TableAction)
    ensures multiset(Insert(sorted, a)) == multiset(sorted) + multiset{a}
  {
    if sorted != [] {
      var n := |sorted| - 1;
      assert sorted == sorted[..n] + [sorted[n]];
      if sorted[n].sequenceNo > a.sequenceNo {
        InsertSame(sorted[..n], a);
      }
    }
  }

  lemma {:induction false} SortedSame(actions: seq<TableAction>)
    ensures multiset(Sorted(actions)) == multiset(actions)
  {
    if actions != [] {
      var n := |actions| - 1;
      SortedSame(actions[..n]);
      assert actions == actions[..n] + [actions[n]];
      InsertSame(Sorted(actions[..n]), actions[n]);
    }
  }

  lemma {:induction false} ActionCueKeys(s: Snapshot, actions: seq<TableAction>, context: seq<TableAction>, key: CueKey)
    requires key in Keys(ActionCues(s, actions, context))
    ensures key.ActionKey? && key.matchId == s.matchId && key.handId == s.handId
    ensures exists a :: a in actions && a.sequenceNo == key.sequenceNo
  {
    hide ActionCue;
    var n := |actions| - 1;
    var earlier, last := ActionCues(s, actions[..n], context), actions[n];
    if key in Keys(earlier) {
      ActionCueKeys(s, actions[..n], context, key);
      var a :| a in actions[..n] && a.sequenceNo == key.sequenceNo;
      assert a in actions;
    } else {
      var cue := ActionCue(s, last, context);
      assert earlier + [] == earlier;
      KeysOne(earlier, DerivedCue(if cue.Some? then cue.value else FoldCue, ActionKey(s.matchId, s.handId, last.sequenceNo)));
      assert last in actions;
    }
  }

  lemma {:induction false} BoardCueKeys(s: Snapshot, from: nat, to: nat, key: CueKey)
    requires from <= to <= |s.board| && key in Keys(BoardCues(s, from, to))
    ensures key.DealCardKey? && key.matchId == s.matchId && key.handId == s.handId && from <= key.index < to
  {
    var earlier := BoardCues(s, from, to - 1);
    if key in Keys(earlier) {
      BoardCueKeys(s, from, to - 1, key);
    } else {
      KeysOne(earlier, DerivedCue(DealCardCue, DealCardKey(s.matchId, s.handId, to - 1, s.board[to - 1])));
    }
  }

  /** What a key says about the two snapshots that produced it. */
  predicate Announces(previous: Snapshot, next: Snapshot, key: CueKey) {
    && previous.matchId == next.matchId == key.matchId && key.handId == next.handId
    && next.version == previous.version + 1
    && (key.NewHandKey? <==> previous.handId != next.handId)
    && match key
       case NewHandKey(_, _) => true
       case ActionKey(_, _, no) => Listed(next.actions, no) && no > MaxSequence(previous.actions)
       case DealCardKey(_, _, index, _) => |previous.board| <= index < |next.board|
       case YourTurnKey(_, _, version) => version == next.version
       case TimerTickKey(_, _, _) => true
  }

  lemma CuesAnnounce(previous: Snapshot, next: Snapshot, hero: AccountId, key: CueKey)
    requires key in Keys(Cues(Some(previous), next, hero))
    ensures Announces(previous, next, key)
  {
    if previous.handId == next.handId && previous.matchId == next.matchId && next.version == previous.version + 1 {
      DedupKeys(Candidates(previous, next, hero));
      CandidatesAnnounce(previous, next, hero, key);
    }
  }

  function ActionPart(previous: Snapshot, next: Snapshot): seq<DerivedCue> {
    var bound := MaxSequence(previous.actions);
    var newer := Sorted(Beyond(next.actions, bound));
    ActionCues(next, newer, UpTo(next.actions, bound) + newer)
  }

  function BoardPart(previous: Snapshot, next: Snapshot): seq<DerivedCue> {
    if previous.board < next.board then BoardCues(next, |previous.board|, |next.board|) else []
  }

  lemma CandidateKeys(previous: Snapshot, next: Snapshot, hero: AccountId)
    ensures Keys(Candidates(previous, next, hero)) ==
            Keys(ActionPart(previous, next)) + Keys(BoardPart(previous, next)) + Keys(TurnCues(previous, next, hero))
            + Keys(TimerCues(next, hero))
  {
    hide Keys, TurnCues, TimerCues, BoardCues, ActionCues;
    var actions, cards := ActionPart(previous, next), BoardPart(previous, next);
    var turn, timer := TurnCues(previous, next, hero), TimerCues(next, hero);
    KeysAppend(actions + cards + turn, timer);
    KeysAppend(actions + cards, turn);
    KeysAppend(actions, cards);
  }

  lemma CandidatesAnnounce(previous: Snapshot, next: Snapshot, hero: AccountId, key: CueKey)
    requires previous.handId == next.handId && previous.matchId == next.matchId && next.version == previous.version + 1
    requires key in Keys(Candidates(previous, next, hero))
    ensures Announces(previous, next, key)
  {
    hide Dedup, UpTo, Insert, Sorted, Beyond, ActionCues, BoardCues, Candidates, MaxSequence;
    CandidateKeys(previous, next, hero);
    if key in Keys(ActionPart(previous, next)) {
      var bound := MaxSequence(previous.actions);
      var newer := Sorted(Beyond(next.actions, bound));
      ActionCueKeys(next, newer, UpTo(next.actions, bound) + newer, key);
      FreshActions(next.actions, bound, key.sequenceNo);
    } else if key in Keys(BoardPart(previous, next)) {
      BoardCueKeys(next, |previous.board|, |next.board|, key);
    }
  }

  lemma FreshActions(actions: seq<TableAction>, bound: int, no: int)
    requires exists a :: a in Sorted(Beyond(actions, bound)) && a.sequenceNo == no
    ensures Listed(actions, no) && no > bound
  {
    hide Sorted, Beyond;
    var a :| a in Sorted(Beyond(actions, bound)) && a.sequenceNo == no;
    SortedSame(Beyond(actions, bound));
    assert a in multiset(Beyond(actions, bound));
    BeyondListed(actions, bound);
  }

  // ---------------------------------------------------------------------------------------------
  // A run of shown snapshots
  // ---------------------------------------------------------------------------------------------

  /** From one snapshot to a later one of the same match: hands do not come back, actions and boards grow. */
  predicate Grows(s: Snapshot, t: Snapshot) {
    && s.matchId == t.matchId && s.handId <= t.handId
    && (s.handId == t.handId ==> s.actions <= t.actions && s.board <= t.board)
  }

  predicate Orderly(snaps: seq<Snapshot>) {
    forall i, j :: 0 <= i <= j < |snaps| ==> snaps[i].version <= snaps[j].version && Grows(snaps[i], snaps[j])
  }

  /** The step from the i-th snapshot to the next emits a cue under the key. */
  predicate Emitted(snaps: seq<Snapshot>, hero: AccountId, i: nat, key: CueKey) {
    i + 1 < |snaps| && key in Keys(Cues(Some(snaps[i]), snaps[i + 1], hero))
  }

  /** Along a run everything but the countdown is announced at most once. */
  lemma AnnouncedOnce(snaps: seq<Snapshot>, hero: AccountId, i: nat, j: nat, key: CueKey)
    requires Orderly(snaps) && i < j && Emitted(snaps, hero, i, key) && Emitted(snaps, hero, j, key)
    ensures key.TimerTickKey?
  {
    CuesAnnounce(snaps[i], snaps[i + 1], hero, key);
    CuesAnnounce(snaps[j], snaps[j + 1], hero, key);
    hide Cues, Keys;
    var first, again, last := snaps[i + 1], snaps[j], snaps[j + 1];
    assert Grows(first, again) && Grows(again, last) && first.version <= again.version;
    assert first.handId == last.handId == again.handId;
    if key.ActionKey? {
      var k :| 0 <= k < |first.actions| && first.actions[k].sequenceNo == key.sequenceNo;
      assert again.actions[k] == first.actions[k];
      assert Listed(again.actions, key.sequenceNo);
      MaxIsBound(again.actions, key.sequenceNo);
    }
  }

  /** Within a hand the hero is to act in the very next version, with as many seconds left as the key says. */
  predicate Ticks(previous: Snapshot, next: Snapshot, hero: AccountId, key: CueKey) {
    && key.TimerTickKey?
    && previous.matchId == next.matchId == key.matchId && previous.handId == next.handId == key.handId
    && next.version == previous.version + 1 && next.actor == Some(hero)
    && next.remaining == Some(key.seconds) && 1 <= key.seconds <= 5
  }

  lemma TurnKeys(previous: Snapshot, next: Snapshot, hero: AccountId, key: CueKey)
    requires key in Keys(TurnCues(previous, next, hero))
    ensures key.YourTurnKey?
  {
  }

  lemma TimerKeys(next: Snapshot, hero: AccountId, seconds: int)
    ensures TimerTickKey(next.matchId, next.handId, seconds) in Keys(TimerCues(next, hero)) <==>
            next.actor == Some(hero) && next.remaining == Some(seconds) && 1 <= seconds <= 5
  {
    var cues := TimerCues(next, hero);
    if cues != [] {
      assert cues[0].key in Keys(cues);
    }
  }

  lemma TickCandidate(previous: Snapshot, next: Snapshot, hero: AccountId, key: CueKey)
    requires key.TimerTickKey? && key in Keys(Candidates(previous, next, hero))
    ensures key in Keys(TimerCues(next, hero))
  {
    hide Candidates, ActionCues, BoardCues, TurnCues, TimerCues, Keys, Sorted, Beyond, UpTo, MaxSequence;
    CandidateKeys(previous, next, hero);
    if key in Keys(ActionPart(previous, next)) {
      var bound := MaxSequence(previous.actions);
      var newer := Sorted(Beyond(next.actions, bound));
      ActionCueKeys(next, newer, UpTo(next.actions, bound) + newer, key);
    } else if key in Keys(BoardPart(previous, next)) {
      BoardPartKeys(previous, next, key);
    } else if key in Keys(TurnCues(previous, next, hero)) {
      TurnKeys(previous, next, hero, key);
    }
  }

  lemma BoardPartKeys(previous: Snapshot, next: Snapshot, key: CueKey)
    requires key in Keys(BoardPart(previous, next))
    ensures key.DealCardKey?
  {
    if previous.board < next.board {
      BoardCueKeys(next, |previous.board|, |next.board|, key);
    }
  }

  /** A countdown key is announced exactly when the snapshots tick. */
  lemma TickIff(previous: Snapshot, next: Snapshot, hero: AccountId, key: CueKey)
    requires key.TimerTickKey?
    ensures key in Keys(Cues(Some(previous), next, hero)) <==> Ticks(previous, next, hero, key)
  {
    if key in Keys(Cues(Some(previous), next, hero)) {
      CuesAnnounce(previous, next, hero, key);
      SameHandCues(previous, next, hero);
      hide Cues, Candidates, Keys;
      TickCandidate(previous, next, hero, key);
      TimerKeys(next, hero, key.seconds);
      TimerMatch(next, hero, key);
    } else if Ticks(previous, next, hero, key) {
      SameHandCues(previous, next, hero);
      TimerKeys(next, hero, key.seconds);
      CandidateKeys(previous, next, hero);
    }
  }

  lemma SameHandCues(previous: Snapshot, next: Snapshot, hero: AccountId)
    requires previous.handId == next.handId && previous.matchId == next.matchId && next.version == previous.version + 1
    ensures Keys(Cues(Some(previous), next, hero)) == Keys(Candidates(previous, next, hero))
  {
    DedupKeys(Candidates(previous, next, hero));
  }

  lemma TimerMatch(next: Snapshot, hero: AccountId, key: CueKey)
    requires key.TimerTickKey? && key in Keys(TimerCues(next, hero))
    ensures key.matchId == next.matchId && key.handId == next.handId
  {
  }

  /**
   * Along a run a key is announced twice exactly when it is a countdown and both times the hero is to act
   * again in the next version of that hand with that many seconds left.
   */
  lemma RepeatsIff(snaps: seq<Snapshot>, hero: AccountId, i: nat, j: nat, key: CueKey)
    requires Orderly(snaps) && i < j && j + 1 < |snaps|
    ensures Emitted(snaps, hero, i, key) && Emitted(snaps, hero, j, key) <==>
            Ticks(snaps[i], snaps[i + 1], hero, key) && Ticks(snaps[j], snaps[j + 1], hero, key)
  {
    hide Cues, Keys, Orderly;
    if key.TimerTickKey? {
      TickIff(snaps[i], snaps[i + 1], hero, key);
      TickIff(snaps[j], snaps[j + 1], hero, key);
    } else if Emitted(snaps, hero, i, key) && Emitted(snaps, hero, j, key) {
      AnnouncedOnce(snaps, hero, i, j, key);
    }
  }

  function LogAction(no: int, account: AccountId, action: ActionType, amount: int): TableAction {
    TableAction(no, account, Preflop, action, Some(amount))
  }

  /**
   * Heads-up with a limit of five seconds: the other player is to act, calls, the hero checks, three cards
   * come, and the hero is first to act on the flop.
   */
  function CheckedToTheFlop(hero: AccountId, other: AccountId, flop: seq<Card>): seq<Snapshot> {
    var dealt := [TablePlayer(hero, 98, false), TablePlayer(other, 99, false)];
    var called := [TablePlayer(hero, 98, false), TablePlayer(other, 98, false)];
    var call, check := LogAction(1, other, CheckOrCall, 1), LogAction(2, hero, CheckOrCall, 0);
    [Snapshot(1, 1, 0, dealt, [], [], Some(other), Some(5), None),
     Snapshot(1, 1, 1, called, [call], [], Some(hero), Some(5), None),
     Snapshot(1, 1, 2, called, [call, check], flop, Some(hero), Some(5), None)]
  }

  lemma FlopOrderly(hero: AccountId, other: AccountId, flop: seq<Card>)
    ensures Orderly(CheckedToTheFlop(hero, other, flop))
  {
    var snaps := CheckedToTheFlop(hero, other, flop);
    assert snaps[0].actions <= snaps[1].actions <= snaps[2].actions;
    forall i, j | 0 <= i <= j < |snaps| ensures snaps[i].version <= snaps[j].version && Grows(snaps[i], snaps[j]) {
      assert i == 0 || i == 1 || i == 2;
      assert j == 0 || j == 1 || j == 2;
    }
  }

  /** So the countdown can repeat: the same second is announced in both of the hero's turns. */
  lemma TickRepeats(hero: AccountId, other: AccountId, flop: seq<Card>)
    requires hero != other && |flop| == 3
    ensures var snaps, key := CheckedToTheFlop(hero, other, flop), TimerTickKey(1, 1, 5);
            Orderly(snaps) && |snaps| == 3 && Emitted(snaps, hero, 0, key) && Emitted(snaps, hero, 1, key)
  {
    hide Cues, Keys, Orderly, Emitted;
    var snaps, key := CheckedToTheFlop(hero, other, flop), TimerTickKey(1, 1, 5);
    FlopOrderly(hero, other, flop);
    RepeatsIff(snaps, hero, 0, 1, key);
  }

  // ---------------------------------------------------------------------------------------------
  // From deliveries to cues
  // ---------------------------------------------------------------------------------------------

  /** The snapshots on show after each delivery, as long as anything is shown. */
  function ShownAfter(events: seq<StoreEvent>): seq<Snapshot> {
    if events == [] then []
    else
      var public := After(events).public;
      ShownAfter(events[..|events| - 1]) + if public.Some? then [public.value] else []
  }

  /** The server's snapshots of a match grow with the version. */
  ghost predicate HonestServer(events: seq<StoreEvent>) {
    forall e, f :: e in events && f in events && Delivers(e) && Delivers(f) && e.snapshot.version <= f.snapshot.version ==>
      Grows(e.snapshot, f.snapshot)
  }

  predicate Delivered(events: seq<StoreEvent>, s: Snapshot) {
    exists i :: 0 <= i < |events| && Delivers(events[i]) && events[i].snapshot == s
  }

  lemma {:induction false} ShownWereDelivered(events: seq<StoreEvent>, matchId: nat)
    requires OneMatch(events, matchId)
    ensures forall s :: s in ShownAfter(events) ==> Delivered(events, s) && s.version <= Newest(events)
  {
    if events != [] {
      var n := |events| - 1;
      OneMatchPrefix(events, matchId);
      ShownWereDelivered(events[..n], matchId);
      ShowsNewest(events, matchId);
      forall s | s in ShownAfter(events) ensures Delivered(events, s) && s.version <= Newest(events) {
        if s in ShownAfter(events[..n]) {
          var i :| 0 <= i < n && Delivers(events[..n][i]) && events[..n][i].snapshot == s;
          assert Delivers(events[i]) && events[i].snapshot == s;
        }
      }
    }
  }

  lemma {:induction false} ShownOrderly(events: seq<StoreEvent>, matchId: nat)
    requires OneMatch(events, matchId) && HonestServer(events)
    ensures Orderly(ShownAfter(events))
  {
    if events != [] {
      var n := |events| - 1;
      OneMatchPrefix(events, matchId);
      assert HonestServer(events[..n]) by {
        assert forall e :: e in events[..n] ==> e in events;
      }
      ShownOrderly(events[..n], matchId);
      ShownWereDelivered(events, matchId);
      ShowsNewest(events, matchId);
      var before, shown := ShownAfter(events[..n]), ShownAfter(events);
      forall i, j | 0 <= i <= j < |shown| ensures shown[i].version <= shown[j].version && Grows(shown[i], shown[j]) {
        if j < |before| {
          assert shown[i] == before[i] && shown[j] == before[j];
        } else {
          assert shown[i] in shown && shown[j] in shown;
          DeliveredGrow(events, shown[i], shown[j]);
        }
      }
    }
  }

  lemma DeliveredGrow(events: seq<StoreEvent>, s: Snapshot, t: Snapshot)
    requires HonestServer(events) && Delivered(events, s) && Delivered(events, t) && s.version <= t.version
    ensures Grows(s, t)
  {
    var i :| 0 <= i < |events| && Delivers(events[i]) && events[i].snapshot == s;
    var j :| 0 <= j < |events| && Delivers(events[j]) && events[j].snapshot == t;
    assert events[i] in events && events[j] in events;
  }

  /**
   * However a match's snapshots are reordered and duplicated on the way, the client announces each
   * action, each card, each hand and each turn at most once.
   */
  lemma CuesOncePerMatch(events: seq<StoreEvent>, matchId: nat, hero: AccountId)
    requires OneMatch(events, matchId) && HonestServer(events)
    ensures var shown := ShownAfter(events);
            forall i: nat, j: nat, key: CueKey :: i < j && Emitted(shown, hero, i, key) && Emitted(shown, hero, j, key) ==>
              key.TimerTickKey?
  {
    hide Emitted;
    ShownOrderly(events, matchId);
    var shown := ShownAfter(events);
    forall i: nat, j: nat, key: CueKey | i < j && Emitted(shown, hero, i, key) && Emitted(shown, hero, j, key)
      ensures key.TimerTickKey?
    {
      AnnouncedOnce(shown, hero, i, j, key);
    }
  }
}
