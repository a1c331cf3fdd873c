/**
 * Names of positions around a table: counted among the players dealt in while a match runs, and among
 * all seats of the match when its statistics are rebuilt. When do the two agree?
 */
module PositionNames {
  import opened PokerHand
  import opened StatisticsReducer

  /** The seat `k` places further around a table of `n`. */
  function Beyond(n: nat, seat: nat, k: nat): nat
    requires n > 0
  {
    (seat + k) % n
  }

  /** Position names count seats from the button. */
  function PositionOf(n: nat, button: nat, i: nat): Position
    requires n > 0
  {
    if i == button then OnButton
    else if i == Beyond(n, button, 1) then OnSmallBlind
    else if i == Beyond(n, button, 2) then OnBigBlind
    else InSeat(i)
  }

  /**
   * The dealer is on the button and the seats after it are the blinds, as far as there are any; everybody else
   * goes by the own seat number. So every seat has a name of its own.
   */
  lemma PositionsDistinct(n: nat, button: nat, i: nat, j: nat)
    requires button < n && i < j < n
    ensures PositionOf(n, button, i) != PositionOf(n, button, j)
    ensures PositionOf(n, button, button) == OnButton
    ensures PositionOf(n, button, Beyond(n, button, 1)) == OnSmallBlind
    ensures n >= 3 ==> PositionOf(n, button, Beyond(n, button, 2)) == OnBigBlind
    ensures PositionOf(n, button, i).InSeat? ==> PositionOf(n, button, i) == InSeat(i)
  {
    hide Beyond;
    Around(n, button, 1);
    Around(n, button, 2);
  }

  lemma Around(n: nat, seat: nat, k: nat)
    requires seat < n && k <= n
    ensures Beyond(n, seat, k) == if seat + k < n then seat + k else seat + k - n
  {
    if n > 0 && seat + k < 2 * n {
      WrapSeat(n, seat + k);
    }
  }

  // ---------------------------------------------------------------------------------------------
  // Some seats of a larger table
  // ---------------------------------------------------------------------------------------------

  /** The numbers of the seats dealt in, out of m, in seat order. */
  predicate Rising(dealt: seq<nat>, m: nat) {
    && (forall i :: 0 <= i < |dealt| ==> dealt[i] < m)
    && forall i, j :: 0 <= i < j < |dealt| ==> dealt[i] < dealt[j]
  }

  /**
   * The seat after the button is dealt in, with three or more players so is the one after that, and no
   * player beyond these sits behind an empty seat.
   */
  predicate NamesKept(dealt: seq<nat>, m: nat, button: nat)
    requires m > 0
  {
    && (|dealt| >= 2 ==> Beyond(m, button, 1) in dealt)
    && (|dealt| >= 3 ==> Beyond(m, button, 2) in dealt)
    && forall seat :: seat in dealt && seat != button && seat != Beyond(m, button, 1) && seat != Beyond(m, button, 2) ==>
         NoneOutBefore(dealt, seat)
  }

  predicate NoneOutBefore(dealt: seq<nat>, seat: nat) {
    forall k :: 0 <= k < seat ==> k in dealt
  }

  lemma {:induction false} SeatAtLeast(dealt: seq<nat>, m: nat, i: nat)
    requires Rising(dealt, m) && i < |dealt|
    ensures dealt[i] >= i
  {
    if i > 0 {
      SeatAtLeast(dealt, m, i - 1);
    }
  }

  lemma {:induction false} SeatAtMost(dealt: seq<nat>, m: nat, i: nat, j: nat)
    requires Rising(dealt, m) && i <= j < |dealt|
    ensures dealt[i] <= dealt[j] - (j - i)
    decreases j
  {
    if i < j {
      SeatAtMost(dealt, m, i, j - 1);
    }
  }

  /** A player's place among those dealt in is the seat number exactly when nobody before is out. */
  lemma {:induction false} PlaceIsSeat(dealt: seq<nat>, m: nat, i: nat)
    requires Rising(dealt, m) && i < |dealt|
    ensures dealt[i] == i <==> NoneOutBefore(dealt, dealt[i])
    decreases i
  {
    SeatAtLeast(dealt, m, i);
    if dealt[i] == i {
      forall k | 0 <= k < i ensures k in dealt {
        SeatAtLeast(dealt, m, k);
        SeatAtMost(dealt, m, k, i);
        assert dealt[k] == k;
      }
    } else if NoneOutBefore(dealt, dealt[i]) {
      assert i in dealt;
      var q :| 0 <= q < |dealt| && dealt[q] == i;
      SeatAtLeast(dealt, m, q);
      if q < i {
        PlaceIsSeat(dealt, m, q);
      }
    }
  }

  /** Neighbouring seats are neighbouring players. */
  lemma NextSeat(dealt: seq<nat>, m: nat, p: nat, q: nat)
    requires Rising(dealt, m) && p < |dealt| && q < |dealt| && m > 0 && dealt[q] == Beyond(m, dealt[p], 1)
    ensures q == Beyond(|dealt|, p, 1)
  {
    hide Beyond;
    Around(m, dealt[p], 1);
    Around(|dealt|, p, 1);
    SeatAtLeast(dealt, m, q);
    if p + 1 < |dealt| {
      assert dealt[p] < dealt[p + 1] < m;
    }
  }

  /** Two seats on sits the next player or the one after. */
  lemma SecondSeat(dealt: seq<nat>, m: nat, p: nat, q: nat)
    requires Rising(dealt, m) && p < |dealt| && q < |dealt| && m >= 2 && dealt[q] == Beyond(m, dealt[p], 2)
    ensures q == Beyond(|dealt|, p, 1) || q == Beyond(|dealt|, p, 2)
  {
    hide Beyond;
    Around(m, dealt[p], 2);
    Around(|dealt|, p, 1);
    SeatAtLeast(dealt, m, q);
    if |dealt| >= 2 {
      Around(|dealt|, p, 2);
      if p + 1 < |dealt| {
        assert dealt[p] < dealt[p + 1] < m;
      }
      if p + 2 < |dealt| {
        assert dealt[p + 1] < dealt[p + 2] < m;
      }
    }
  }

  // ---------------------------------------------------------------------------------------------
  // Names among those dealt in, and among all seats
  // ---------------------------------------------------------------------------------------------

  /** What the player in place i is called among those dealt in, the button being in place p. */
  function LiveName(dealt: seq<nat>, p: nat, i: nat): Position
    requires |dealt| > 0
  {
    PositionOf(|dealt|, p, i)
  }

  function StoredName(dealt: seq<nat>, m: nat, p: nat, i: nat): Position
    requires m > 0 && p < |dealt| && i < |dealt|
  {
    PositionOf(m, dealt[p], dealt[i])
  }

  predicate SameNames(dealt: seq<nat>, m: nat, p: nat)
    requires m > 0 && p < |dealt|
  {
    forall i :: 0 <= i < |dealt| ==> LiveName(dealt, p, i) == StoredName(dealt, m, p, i)
  }

  /** Where the blinds of the whole table sit among those dealt in. */
  lemma BlindPlaces(dealt: seq<nat>, m: nat, p: nat)
    requires Rising(dealt, m) && m >= 2 && p < |dealt|
    requires |dealt| >= 2 && Beyond(m, dealt[p], 1) in dealt
    ensures dealt[Beyond(|dealt|, p, 1)] == Beyond(m, dealt[p], 1)
    ensures |dealt| >= 3 && Beyond(m, dealt[p], 2) in dealt ==>
              dealt[Beyond(|dealt|, p, 2)] == Beyond(m, dealt[p], 2)
  {
    hide Beyond;
    var q :| 0 <= q < |dealt| && dealt[q] == Beyond(m, dealt[p], 1);
    NextSeat(dealt, m, p, q);
    if |dealt| >= 3 && Beyond(m, dealt[p], 2) in dealt {
      var r :| 0 <= r < |dealt| && dealt[r] == Beyond(m, dealt[p], 2);
      SecondSeat(dealt, m, p, r);
      Around(m, dealt[p], 1);
      Around(m, dealt[p], 2);
    }
  }

  lemma OneSeat(dealt: seq<nat>, m: nat)
    requires Rising(dealt, m) && |dealt| >= 2
    ensures m >= 2
  {
    assert dealt[0] < dealt[1];
  }

  lemma KeptName(dealt: seq<nat>, m: nat, p: nat, i: nat)
    requires Rising(dealt, m) && m > 0 && p < |dealt| && i < |dealt| && NamesKept(dealt, m, dealt[p])
    ensures LiveName(dealt, p, i) == StoredName(dealt, m, p, i)
  {
    hide Beyond, NoneOutBefore;
    var n := |dealt|;
    if i != p {
      OneSeat(dealt, m);
      BlindPlaces(dealt, m, p);
      PlaceIsSeat(dealt, m, i);
      Around(n, p, 1);
      Around(n, p, 2);
      Around(m, dealt[p], 1);
      Around(m, dealt[p], 2);
    }
  }

  lemma SameNamesKept(dealt: seq<nat>, m: nat, p: nat)
    requires Rising(dealt, m) && m > 0 && p < |dealt| && SameNames(dealt, m, p)
    ensures NamesKept(dealt, m, dealt[p])
  {
    hide Beyond, NoneOutBefore;
    var n := |dealt|;
    if n >= 2 {
      OneSeat(dealt, m);
      Around(n, p, 1);
      Around(n, p, 2);
      Around(m, dealt[p], 1);
      Around(m, dealt[p], 2);
      var first, second := Beyond(n, p, 1), Beyond(n, p, 2);
      assert LiveName(dealt, p, first) == OnSmallBlind == StoredName(dealt, m, p, first);
      if n >= 3 {
        assert LiveName(dealt, p, second) == OnBigBlind == StoredName(dealt, m, p, second);
      }
      forall i | 0 <= i < n && StoredName(dealt, m, p, i).InSeat? ensures NoneOutBefore(dealt, dealt[i]) {
        assert LiveName(dealt, p, i) == StoredName(dealt, m, p, i);
        PlaceIsSeat(dealt, m, i);
      }
    }
  }

  /** Everybody keeps the same name exactly when the seats after the button and before everybody else are dealt in. */
  lemma NamesKeptIff(dealt: seq<nat>, m: nat, p: nat)
    requires Rising(dealt, m) && m > 0 && p < |dealt|
    ensures SameNames(dealt, m, p) <==> NamesKept(dealt, m, dealt[p])
  {
    hide NamesKept, LiveName, StoredName;
    if NamesKept(dealt, m, dealt[p]) {
      forall i | 0 <= i < |dealt| ensures LiveName(dealt, p, i) == StoredName(dealt, m, p, i) {
        KeptName(dealt, m, p, i);
      }
    } else if SameNames(dealt, m, p) {
      SameNamesKept(dealt, m, p);
    }
  }

  /** How far from the button a name speaks of. */
  function Distance(position: Position): nat {
    match position
    case OnButton => 0
    case OnSmallBlind => 0
    case OnBigBlind => 1
    case InSeat(i) => 2 + i
  }

  /** Leaving seats out only moves a player closer to the button, so differences never cancel out. */
  lemma LiveNameCloser(dealt: seq<nat>, m: nat, p: nat, i: nat)
    requires Rising(dealt, m) && m > 0 && p < |dealt| && i < |dealt|
    ensures Distance(LiveName(dealt, p, i)) <= Distance(StoredName(dealt, m, p, i))
    ensures Distance(LiveName(dealt, p, i)) == Distance(StoredName(dealt, m, p, i)) ==>
              LiveName(dealt, p, i) == StoredName(dealt, m, p, i)
    ensures StoredName(dealt, m, p, i).InSeat? ==> StoredName(dealt, m, p, i).index < m
    ensures LiveName(dealt, p, i).InSeat? ==> LiveName(dealt, p, i).index < m
  {
    hide Beyond;
    SeatAtLeast(dealt, m, i);
    if i != p {
      OneSeat(dealt, m);
      if dealt[i] == Beyond(m, dealt[p], 1) {
        NextSeat(dealt, m, p, i);
      } else if dealt[i] == Beyond(m, dealt[p], 2) {
        SecondSeat(dealt, m, p, i);
      }
    }
  }
}
