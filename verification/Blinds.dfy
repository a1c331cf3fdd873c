/** Room rules and the blind schedule they imply. */
module Blinds {
  import opened Prelude

  type pos = n: int | n > 0 witness 1

  datatype EndMode = WinnerTakesAll | FixedHands

  datatype RoomRules = RoomRules(
    maxPlayers: int,
    endMode: EndMode,
    fixedHandCount: Option<int>,
    startingChips: int,
    smallBlind: int,
    bigBlind: int,
    ante: int,
    decisionTimeout: Option<int>,
    blindIncreaseEveryHands: pos,
    winnerMayShowHand: bool,
    countedInStats: bool)

  /** The field bounds and cross-field checks a room's rules pass before any match starts. */
  predicate ValidRules(r: RoomRules) {
    && 2 <= r.maxPlayers <= 8
    && r.startingChips >= 100
    && r.smallBlind >= 1 && r.smallBlind * 2 == r.bigBlind && r.ante == 0
    && 2 <= r.blindIncreaseEveryHands <= 20
    && (r.decisionTimeout.Some? ==> r.decisionTimeout.value >= 1)
    && (r.endMode.FixedHands? <==> r.fixedHandCount.Some?)
    && (r.fixedHandCount.Some? ==> 5 <= r.fixedHandCount.value <= 20)
  }

  datatype BlindAmounts = BlindAmounts(small: int, big: int)

  function Pow2(n: nat): pos {
    if n == 0 then 1 else 2 * Pow2(n - 1)
  }

  function Level(r: RoomRules, handNumber: pos): nat {
    (handNumber - 1) / r.blindIncreaseEveryHands
  }

  function AmountsFor(r: RoomRules, handNumber: pos): BlindAmounts {
    BlindAmounts(r.smallBlind * Pow2(Level(r, handNumber)), r.bigBlind * Pow2(Level(r, handNumber)))
  }

  lemma {:induction false} Pow2Monotone(a: nat, b: nat)
    requires a <= b
    ensures Pow2(a) <= Pow2(b)
    ensures a < b ==> 2 * Pow2(a) <= Pow2(b)
  {
    if a < b {
      Pow2Monotone(a, b - 1);
    }
  }

  lemma {:induction false} Pow2Exceeds(n: nat)
    ensures Pow2(n) > n
  {
    if n > 0 {
      Pow2Exceeds(n - 1);
    }
  }

  /** One full interval later, both blinds are exactly doubled. */
  lemma BlindsDouble(r: RoomRules, handNumber: pos)
    ensures var now := AmountsFor(r, handNumber);
            AmountsFor(r, handNumber + r.blindIncreaseEveryHands) == BlindAmounts(2 * now.small, 2 * now.big)
  {
    DivAdd(handNumber - 1, r.blindIncreaseEveryHands);
    var level := Level(r, handNumber);
    assert Level(r, handNumber + r.blindIncreaseEveryHands) == level + 1;
    assert r.smallBlind * (2 * Pow2(level)) == 2 * (r.smallBlind * Pow2(level));
    assert r.bigBlind * (2 * Pow2(level)) == 2 * (r.bigBlind * Pow2(level));
  }

  /** Scaling by a larger factor: never smaller, and at least double once the factor has doubled. */
  lemma Scaled(m: int, early: int, late: int)
    requires m >= 1 && 1 <= early <= late
    ensures 1 <= m * early <= m * late
    ensures 2 * early <= late ==> 2 * (m * early) <= m * late
  {
    MulMonotone(1, early, m);
    MulMonotone(early, late, m);
    if 2 * early <= late {
      MulMonotone(2 * early, late, m);
      assert m * (2 * early) == 2 * (m * early);
    }
  }

  lemma RatioKept(small: int, big: int, factor: int)
    requires small * 2 == big
    ensures big * factor == 2 * (small * factor)
  {
  }

  /** Blinds never fall, keep their 1:2 ratio, and change between two hands exactly when the level does. */
  lemma BlindsMonotone(r: RoomRules, early: pos, late: pos)
    requires ValidRules(r) && early <= late
    ensures var a, b := AmountsFor(r, early), AmountsFor(r, late);
            && 1 <= a.small <= b.small && a.big == 2 * a.small && b.big == 2 * b.small
            && (a != b <==> Level(r, early) != Level(r, late))
            && (a != b ==> b.small >= 2 * a.small)
  {
    LevelMonotone(r, early, late);
    hide Level, Pow2;
    var i, j := Level(r, early), Level(r, late);
    Pow2Monotone(i, j);
    var f, g := Pow2(i), Pow2(j);
    Scaled(r.smallBlind, f, g);
    RatioKept(r.smallBlind, r.bigBlind, f);
    RatioKept(r.smallBlind, r.bigBlind, g);
  }

  lemma LevelMonotone(r: RoomRules, early: pos, late: pos)
    requires early <= late
    ensures Level(r, early) <= Level(r, late)
  {
    DivMonotone(early - 1, late - 1, r.blindIncreaseEveryHands);
  }

  /** However many chips are in play, from this hand on even the small blind is larger than all of them. */
  lemma BlindsExceed(r: RoomRules, chips: nat, handNumber: pos)
    requires ValidRules(r) && handNumber > r.blindIncreaseEveryHands * chips
    ensures AmountsFor(r, handNumber).small > chips
  {
    var first := r.blindIncreaseEveryHands * chips + 1;
    assert Level(r, first) == chips by { DivExact(chips, r.blindIncreaseEveryHands); }
    Pow2Exceeds(chips);
    MulMonotone(1, r.smallBlind, Pow2(chips));
    assert AmountsFor(r, first).small == Pow2(chips) * r.smallBlind;
    BlindsMonotone(r, first, handNumber);
  }
}
