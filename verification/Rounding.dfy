/** Stored ratings: integers counting ten-thousandths, rounded half away from zero. */
module Rounding {
  const SCALE: real := 10000.0

  function RoundHalfUp(x: real): int {
    if x >= 0.0 then (x + 0.5).Floor else -((0.5 - x).Floor)
  }

  function Points(stored: int): real {
    stored as real / SCALE
  }

  function Quantize(points: real): int {
    RoundHalfUp(points * SCALE)
  }

  predicate Tie(x: real) {
    x - x.Floor as real == 0.5
  }

  /** No integer lies closer, and between two equally close ones the one further from zero is chosen. */
  lemma RoundNearest(x: real, k: int)
    ensures var r := RoundHalfUp(x);
            && -0.5 <= r as real - x <= 0.5
            && (k != r ==> if x >= 0.0 then x - k as real >= 0.5 || k as real - x > 0.5
                           else x - k as real > 0.5 || k as real - x >= 0.5)
  {
  }

  /** In terms of the whole part and the fraction above it. */
  lemma RoundByFraction(x: real)
    ensures var whole := x.Floor; var part := x - whole as real;
            RoundHalfUp(x) == if part > 0.5 || (part == 0.5 && x >= 0.0) then whole + 1 else whole
  {
  }

  lemma FloorShifts(n: int, x: real)
    ensures (n as real + x).Floor == n + x.Floor
  {
  }

  lemma RoundShifts(n: int, x: real)
    requires !Tie(x) || (x < 0.0 <==> n as real + x < 0.0)
    ensures RoundHalfUp(n as real + x) == n + RoundHalfUp(x)
  {
    hide RoundHalfUp;
    FloorShifts(n, x);
    RoundByFraction(x);
    RoundByFraction(n as real + x);
  }

  /** Reading back a stored value and storing it again changes nothing. */
  lemma QuantizeExact(stored: int)
    ensures Quantize(Points(stored)) == stored
  {
    assert Points(stored) * SCALE == stored as real;
  }

  /**
   * The new rating and the rounded change are rounded separately. They agree except when the change
   * falls exactly between two quanta and has the other sign than the new rating; then the stored
   * rating is one quantum further along than the stored change says.
   */
  lemma StoredChange(before: int, delta: real)
    ensures var gap := Quantize(Points(before) + delta) - (before + Quantize(delta));
            && (gap == 0 <==> !Tie(delta * SCALE) || (delta < 0.0 <==> Points(before) + delta < 0.0))
            && (gap != 0 ==> gap == if delta < 0.0 then 1 else -1)
  {
    var d := delta * SCALE;
    assert (Points(before) + delta) * SCALE == before as real + d;
    var y := before as real + d;
    assert d < 0.0 <==> delta < 0.0;
    assert y < 0.0 <==> Points(before) + delta < 0.0;
    if !Tie(d) || (d < 0.0 <==> y < 0.0) {
      RoundShifts(before, d);
    } else {
      hide RoundHalfUp;
      FloorShifts(before, d);
      RoundByFraction(d);
      RoundByFraction(y);
    }
  }

  lemma StoredDrift(before: int, delta: real)
    ensures -0.5 <= (Quantize(Points(before) + delta) - before) as real - delta * SCALE <= 0.5
  {
    assert (Points(before) + delta) * SCALE == before as real + delta * SCALE;
    RoundNearest(before as real + delta * SCALE, 0);
  }
}
