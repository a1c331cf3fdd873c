/** The multiplayer Elo calculation, over reals and an arbitrary power function. */
module Elo {
  import opened Prelude

  type AccountId = int

  datatype Participant = Participant(accountId: AccountId, rating: real, rank: int)

  datatype EloChange = EloChange(accountId: AccountId, before: real, delta: real, after: real)

  datatype EloError = TooFew | DuplicateAccount | BadKFactor | BadRank

  /** Ten to the power of x, known only to be positive and to turn a sign change into a reciprocal. */
  type Power = real -> real

  ghost predicate PowerLaw(p: Power) {
    forall t :: p(t) > 0.0 && p(t) * p(-t) == 1.0
  }

  function ExpectedScore(p: Power, rating: real, opponent: real): real
    requires PowerLaw(p)
  {
    1.0 / (1.0 + p((opponent - rating) / 400.0))
  }

  function ActualScore(rank: int, opponent: int): real {
    if rank < opponent then 1.0 else if rank == opponent then 0.5 else 0.0
  }

  /** What one opponent adds to a participant's score difference; a participant does not meet itself. */
  function Term(p: Power, me: Participant, other: Participant): real
    requires PowerLaw(p)
  {
    if other.accountId == me.accountId then 0.0
    else ActualScore(me.rank, other.rank) - ExpectedScore(p, me.rating, other.rating)
  }

  function Score(p: Power, me: Participant, field: seq<Participant>): real
    requires PowerLaw(p)
  {
    if field == [] then 0.0
    else Score(p, me, field[..|field| - 1]) + Term(p, me, field[|field| - 1])
  }

  function Factor(k: real, players: nat): real
    requires players >= 2
  {
    k / ((players - 1) as real)
  }

  function Delta(p: Power, k: real, me: Participant, field: seq<Participant>): real
    requires PowerLaw(p) && |field| >= 2
  {
    Factor(k, |field|) * Score(p, me, field)
  }

  predicate Unique(field: seq<Participant>) {
    forall i, j :: 0 <= i < j < |field| ==> field[i].accountId != field[j].accountId
  }

  function Refusal(field: seq<Participant>, k: real): Option<EloError> {
    if |field| < 2 then Some(TooFew)
    else if !Unique(field) then Some(DuplicateAccount)
    else if k <= 0.0 then Some(BadKFactor)
    else if exists i :: 0 <= i < |field| && field[i].rank < 1 then Some(BadRank)
    else None
  }

  /** Two nested loops: every participant against every opponent. */
  method CalculateRatings(p: Power, field: seq<Participant>, k: real) returns (r: Result<seq<EloChange>, EloError>)
    requires PowerLaw(p)
    ensures r.Err? <==> Refusal(field, k).Some?
    ensures r.Ok? <==>
            && |field| >= 2 && k > 0.0 && (forall i :: 0 <= i < |field| ==> field[i].rank >= 1)
            && forall i, j :: 0 <= i < j < |field| ==> field[i].accountId != field[j].accountId
    ensures r.Err? ==> Some(r.error) == Refusal(field, k)
    ensures r.Ok? ==>
              && |r.value| == |field|
              && forall i :: 0 <= i < |field| ==>
                   var delta := Delta(p, k, field[i], field);
                   r.value[i] == EloChange(field[i].accountId, field[i].rating, delta, field[i].rating + delta)
  {
    hide ExpectedScore, ActualScore, Factor, PowerLaw;
    var refusal := Refusal(field, k);
    if refusal.Some? {
      return Err(refusal.value);
    }
    var changes: seq<EloChange> := [];
    for i := 0 to |field|
      invariant |changes| == i
      invariant forall j :: 0 <= j < i ==>
                  var delta := Delta(p, k, field[j], field);
                  changes[j] == EloChange(field[j].accountId, field[j].rating, delta, field[j].rating + delta)
    {
      var scoreDifference := 0.0;
      for j := 0 to |field|
        invariant scoreDifference == Score(p, field[i], field[..j])
      {
        assert field[..j + 1][..j] == field[..j];
        if field[j].accountId != field[i].accountId {
          var expected := ExpectedScore(p, field[i].rating, field[j].rating);
          var actual := ActualScore(field[i].rank, field[j].rank);
          scoreDifference := scoreDifference + (actual - expected);
        }
      }
      assert field[..|field|] == field;
      var delta := Factor(k, |field|) * scoreDifference;
      changes := changes + [EloChange(field[i].accountId, field[i].rating, delta, field[i].rating + delta)];
    }
    r := Ok(changes);
  }

  // ---------------------------------------------------------------------------------------------
  // One pair of opponents
  // ---------------------------------------------------------------------------------------------

  lemma Reciprocals(x: real, y: real)
    requires x > 0.0 && y > 0.0 && x * y == 1.0
    ensures 1.0 / (1.0 + x) + 1.0 / (1.0 + y) == 1.0
  {
    var e := 1.0 / (1.0 + x);
    assert e * (1.0 + x) == 1.0;
    assert (x * e) * (1.0 + y) == e * (x + x * y) == 1.0;
    assert x * e == 1.0 / (1.0 + y);
    assert e + x * e == e * (1.0 + x);
  }

  lemma Fraction(x: real)
    requires x > 0.0
    ensures 0.0 < 1.0 / (1.0 + x) < 1.0
  {
  }

  /** What one side gains from a pairing the other loses, and neither can gain or lose a whole point. */
  lemma PairBalanced(p: Power, a: Participant, b: Participant)
    requires PowerLaw(p)
    ensures Term(p, a, b) == -Term(p, b, a)
    ensures -1.0 < Term(p, a, b) < 1.0
  {
    var t := (b.rating - a.rating) / 400.0;
    assert (a.rating - b.rating) / 400.0 == -t;
    assert p(t) > 0.0 && p(-t) > 0.0 && p(t) * p(-t) == 1.0;
    Reciprocals(p(t), p(-t));
    Fraction(p(t));
    Fraction(p(-t));
  }

  lemma EvenOdds(p: Power, rating: real)
    requires PowerLaw(p)
    ensures ExpectedScore(p, rating, rating) == 0.5
  {
    var x := p(0.0);
    assert -0.0 == 0.0 && p(0.0) > 0.0 && p(0.0) * p(-0.0) == 1.0;
    assert x * x == 1.0;
    assert (x - 1.0) * (x + 1.0) == 0.0;
    assert (rating - rating) / 400.0 == 0.0;
  }

  // ---------------------------------------------------------------------------------------------
  // The whole field
  // ---------------------------------------------------------------------------------------------

  function TotalScore(p: Power, mine: seq<Participant>, field: seq<Participant>): real
    requires PowerLaw(p)
  {
    if mine == [] then 0.0
    else TotalScore(p, mine[..|mine| - 1], field) + Score(p, mine[|mine| - 1], field)
  }

  /** One newcomer's score against the field mirrors the field's scores against the newcomer. */
  lemma {:induction false} NewcomerMirrors(p: Power, mine: seq<Participant>, x: Participant, field: seq<Participant>)
    requires PowerLaw(p)
    ensures TotalScore(p, mine, field + [x]) == TotalScore(p, mine, field) - Score(p, x, mine)
  {
    if mine != [] {
      var n := |mine| - 1;
      NewcomerMirrors(p, mine[..n], x, field);
      assert (field + [x])[..|field|] == field;
      PairBalanced(p, mine[n], x);
    }
  }

  lemma {:induction false} ScoresMirror(p: Power, mine: seq<Participant>, field: seq<Participant>)
    requires PowerLaw(p)
    ensures TotalScore(p, mine, field) == -TotalScore(p, field, mine)
  {
    if mine == [] {
      EmptyField(p, field);
    } else {
      var n := |mine| - 1;
      ScoresMirror(p, mine[..n], field);
      NewcomerMirrors(p, field, mine[n], mine[..n]);
      assert mine == mine[..n] + [mine[n]];
    }
  }

  lemma {:induction false} EmptyField(p: Power, mine: seq<Participant>)
    requires PowerLaw(p)
    ensures TotalScore(p, mine, []) == 0.0
  {
    if mine != [] {
      EmptyField(p, mine[..|mine| - 1]);
    }
  }

  function TotalDelta(p: Power, k: real, mine: seq<Participant>, field: seq<Participant>): real
    requires PowerLaw(p) && |field| >= 2
  {
    if mine == [] then 0.0
    else TotalDelta(p, k, mine[..|mine| - 1], field) + Delta(p, k, mine[|mine| - 1], field)
  }

  lemma {:induction false} TotalDeltaScales(p: Power, k: real, mine: seq<Participant>, field: seq<Participant>)
    requires PowerLaw(p) && |field| >= 2
    ensures TotalDelta(p, k, mine, field) == Factor(k, |field|) * TotalScore(p, mine, field)
  {
    if mine != [] {
      var n := |mine| - 1;
      TotalDeltaScales(p, k, mine[..n], field);
      Distribute(Factor(k, |field|), TotalScore(p, mine[..n], field), Score(p, mine[n], field));
    }
  }

  lemma Distribute(c: real, a: real, b: real)
    ensures c * (a + b) == c * a + c * b
  {
  }

  /** For any number of players the exact rating changes of a match sum to zero. */
  lemma DeltasSumToZero(p: Power, k: real, field: seq<Participant>)
    requires PowerLaw(p) && |field| >= 2
    ensures TotalDelta(p, k, field, field) == 0.0
  {
    TotalDeltaScales(p, k, field, field);
    ScoresMirror(p, field, field);
    assert TotalScore(p, field, field) == 0.0;
  }

  function Opponents(me: Participant, field: seq<Participant>): nat {
    if field == [] then 0
    else Opponents(me, field[..|field| - 1]) + if field[|field| - 1].accountId == me.accountId then 0 else 1
  }

  lemma {:induction false} ScoreBounded(p: Power, me: Participant, field: seq<Participant>)
    requires PowerLaw(p)
    ensures var n := Opponents(me, field) as real;
            if n == 0.0 then Score(p, me, field) == 0.0 else -n < Score(p, me, field) < n
  {
    if field != [] {
      ScoreBounded(p, me, field[..|field| - 1]);
      PairBalanced(p, me, field[|field| - 1]);
    }
  }

  lemma {:induction false} OpponentsOthers(me: Participant, field: seq<Participant>)
    requires Unique(field)
    ensures Opponents(me, field) ==
            |field| - if exists i :: 0 <= i < |field| && field[i].accountId == me.accountId then 1 else 0
  {
    if field != [] {
      var n := |field| - 1;
      OpponentsOthers(me, field[..n]);
      if exists i :: 0 <= i < |field| && field[i].accountId == me.accountId {
        var i :| 0 <= i < |field| && field[i].accountId == me.accountId;
        assert i < n ==> field[..n][i].accountId == me.accountId;
      }
    }
  }

  lemma ScaleBound(k: real, n: real, score: real)
    requires k > 0.0 && n > 0.0 && -n < score < n
    ensures -k < k / n * score < k
  {
    var c := k / n;
    assert c > 0.0 && c * n == k;
    assert c * (n - score) > 0.0 && c * (score + n) > 0.0;
    assert c * (n - score) == c * n - c * score && c * (score + n) == c * score + c * n;
  }

  /** Nobody gains or loses a full k-factor in one match. */
  lemma DeltaBounded(p: Power, k: real, field: seq<Participant>, i: nat)
    requires PowerLaw(p) && k > 0.0 && |field| >= 2 && Unique(field) && i < |field|
    ensures -k < Delta(p, k, field[i], field) < k
  {
    OpponentsOthers(field[i], field);
    ScoreBounded(p, field[i], field);
    ScaleBound(k, (|field| - 1) as real, Score(p, field[i], field));
  }

  // ---------------------------------------------------------------------------------------------
  // Order of participants
  // ---------------------------------------------------------------------------------------------

  lemma {:induction false} ScoreAppend(p: Power, me: Participant, a: seq<Participant>, b: seq<Participant>)
    requires PowerLaw(p)
    ensures Score(p, me, a + b) == Score(p, me, a) + Score(p, me, b)
  {
    if b == [] {
      assert a + b == a;
    } else {
      ScoreAppend(p, me, a, b[..|b| - 1]);
      assert (a + b)[..|a + b| - 1] == a + b[..|b| - 1];
    }
  }

  /** A participant's change depends on who takes part, not on the order they are listed in. */
  lemma {:induction false} ScorePermutes(p: Power, me: Participant, field: seq<Participant>, other: seq<Participant>)
    requires PowerLaw(p) && multiset(field) == multiset(other)
    ensures Score(p, me, field) == Score(p, me, other)
    decreases |field|
  {
    if field == [] {
      assert |multiset(other)| == 0;
    } else {
      var k := TakeLast(field, other);
      ScorePermutes(p, me, field[..|field| - 1], Without(other, k));
      ScoreWithout(p, me, other, k);
    }
  }

  lemma ScoreWithout(p: Power, me: Participant, field: seq<Participant>, k: nat)
    requires PowerLaw(p) && k < |field|
    ensures Score(p, me, field) == Score(p, me, Without(field, k)) + Term(p, me, field[k])
  {
    var x := field[k];
    assert field == field[..k] + [x] + field[k + 1..];
    ScoreAppend(p, me, field[..k] + [x], field[k + 1..]);
    ScoreAppend(p, me, field[..k], [x]);
    ScoreAppend(p, me, field[..k], field[k + 1..]);
    ScoreOne(p, me, x);
  }

  lemma ScoreOne(p: Power, me: Participant, x: Participant)
    requires PowerLaw(p)
    ensures Score(p, me, [x]) == Term(p, me, x)
  {
    assert [x][..0] == [];
  }

  lemma DeltaPermutes(p: Power, k: real, me: Participant, field: seq<Participant>, other: seq<Participant>)
    requires PowerLaw(p) && multiset(field) == multiset(other) && |field| >= 2
    ensures |other| >= 2 && Delta(p, k, me, field) == Delta(p, k, me, other)
  {
    assert |multiset(field)| == |field| && |multiset(other)| == |other|;
    ScorePermutes(p, me, field, other);
  }

  // ---------------------------------------------------------------------------------------------
  // Better ranks
  // ---------------------------------------------------------------------------------------------

  lemma BetterTerm(p: Power, a: Participant, b: Participant, x: Participant)
    requires PowerLaw(p) && a.rating == b.rating && a.rank < b.rank && a.accountId != b.accountId
    requires (x.accountId == a.accountId ==> x == a) && (x.accountId == b.accountId ==> x == b)
    ensures Term(p, a, x) >= Term(p, b, x)
    ensures x == b ==> Term(p, a, x) >= Term(p, b, x) + 0.5
  {
    EvenOdds(p, a.rating);
  }

  lemma {:induction false} BetterScore(p: Power, a: Participant, b: Participant, field: seq<Participant>)
    requires PowerLaw(p) && a.rating == b.rating && a.rank < b.rank && a.accountId != b.accountId
    requires forall x :: x in field ==> (x.accountId == a.accountId ==> x == a) && (x.accountId == b.accountId ==> x == b)
    ensures Score(p, a, field) >= Score(p, b, field) + if b in field then 0.5 else 0.0
  {
    if field != [] {
      var n := |field| - 1;
      BetterScore(p, a, b, field[..n]);
      BetterTerm(p, a, b, field[n]);
      assert field == field[..n] + [field[n]];
    }
  }

  /** Between equally rated players, the strictly better rank earns strictly more. */
  lemma BetterRankEarnsMore(p: Power, k: real, field: seq<Participant>, i: nat, j: nat)
    requires PowerLaw(p) && k > 0.0 && |field| >= 2 && Unique(field) && i < |field| && j < |field|
    requires field[i].rating == field[j].rating && field[i].rank < field[j].rank
    ensures Delta(p, k, field[i], field) > Delta(p, k, field[j], field)
  {
    BetterScore(p, field[i], field[j], field);
    FactorPositive(k, |field|);
    hide Score, Factor;
    ScaleStrict(Factor(k, |field|), Score(p, field[j], field), Score(p, field[i], field));
  }

  lemma FactorPositive(k: real, players: nat)
    requires k > 0.0 && players >= 2
    ensures Factor(k, players) > 0.0
  {
  }

  lemma ScaleStrict(c: real, a: real, b: real)
    requires c > 0.0 && a < b
    ensures c * a < c * b
  {
  }

  /** The same result against a higher-rated opponent is worth strictly more. */
  lemma UpsetPaysMore(p: Power, me: Participant, weaker: Participant, stronger: Participant)
    requires PowerLaw(p) && (forall s, t :: s < t ==> p(s) < p(t))
    requires weaker.rating < stronger.rating && weaker.rank == stronger.rank
    requires me.accountId != weaker.accountId && me.accountId != stronger.accountId
    ensures Term(p, me, weaker) < Term(p, me, stronger)
  {
    var s, t := (weaker.rating - me.rating) / 400.0, (stronger.rating - me.rating) / 400.0;
    assert t - s == (stronger.rating - weaker.rating) / 400.0 > 0.0;
    assert 0.0 < p(s) < p(t);
    LargerDivisor(1.0 + p(s), 1.0 + p(t));
  }

  lemma LargerDivisor(x: real, y: real)
    requires 0.0 < x < y
    ensures 1.0 / x > 1.0 / y
  {
    var q := 1.0 / y;
    assert q * y == 1.0 && q > 0.0;
    assert q * x < q * y;
  }

  function SamplePower(t: real): real {
    if t >= 0.0 then 1.0 + t else 1.0 / (1.0 - t)
  }

  lemma SampleInverts(t: real)
    ensures SamplePower(t) > 0.0 && SamplePower(t) * SamplePower(-t) == 1.0
  {
    if t > 0.0 {
      assert SamplePower(-t) == 1.0 / (1.0 - -t) == 1.0 / (1.0 + t);
    } else if t < 0.0 {
      assert SamplePower(-t) == 1.0 + -t == 1.0 - t;
    }
  }

  lemma SampleGrows(s: real, t: real)
    requires s < t
    ensures SamplePower(s) < SamplePower(t)
  {
    if t < 0.0 {
      LargerDivisor(1.0 - t, 1.0 - s);
    } else if s < 0.0 {
      LargerDivisor(1.0, 1.0 - s);
    }
  }

  /** The laws asked of the power function can be met, growth included. */
  lemma SamplePowerIsLawful()
    ensures PowerLaw(SamplePower) && forall s, t :: s < t ==> SamplePower(s) < SamplePower(t)
  {
    hide SamplePower;
    forall t ensures SamplePower(t) > 0.0 && SamplePower(t) * SamplePower(-t) == 1.0 {
      SampleInverts(t);
    }
    forall s, t | s < t ensures SamplePower(s) < SamplePower(t) {
      SampleGrows(s, t);
    }
  }
}
