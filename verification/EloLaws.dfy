/** The size of a rating change: duels, odds, and what a win among equals is worth. */
module EloLaws {
  import opened Prelude
  import opened Elo

  lemma ScoreStep(p: Power, me: Participant, field: seq<Participant>, other: Participant)
    requires PowerLaw(p)
    ensures Score(p, me, field + [other]) == Score(p, me, field) + Term(p, me, other)
  {
    assert (field + [other])[..|field|] == field;
  }

  /** Against one opponent: the k-factor times what the result was over what was expected. */
  lemma Duel(p: Power, k: real, me: Participant, other: Participant)
    requires PowerLaw(p) && me.accountId != other.accountId
    ensures Delta(p, k, me, [me, other]) ==
            k * (ActualScore(me.rank, other.rank) - ExpectedScore(p, me.rating, other.rating))
  {
    hide ActualScore, ExpectedScore;
    assert [me, other] == [] + [me] + [other];
    ScoreStep(p, me, [] + [me], other);
    ScoreStep(p, me, [], me);
    assert Factor(k, 2) == k;
  }

  /** What the duels against everybody else in the field would be worth together. */
  function Duels(p: Power, k: real, me: Participant, field: seq<Participant>): real
    requires PowerLaw(p)
  {
    if field == [] then 0.0
    else
      var other := field[|field| - 1];
      Duels(p, k, me, field[..|field| - 1])
      + if other.accountId == me.accountId then 0.0 else Delta(p, k, me, [me, other])
  }

  lemma {:induction false} DuelsAreScore(p: Power, k: real, me: Participant, field: seq<Participant>)
    requires PowerLaw(p)
    ensures Duels(p, k, me, field) == k * Score(p, me, field)
  {
    hide ActualScore, ExpectedScore, Delta;
    if field != [] {
      var n := |field| - 1;
      DuelsAreScore(p, k, me, field[..n]);
      var other := field[n];
      if other.accountId != me.accountId {
        Duel(p, k, me, other);
      }
      Distribute(k, Score(p, me, field[..n]), Term(p, me, other));
    }
  }

  /** A match of many is worth the average of its duels. */
  lemma AverageOfDuels(p: Power, k: real, me: Participant, field: seq<Participant>)
    requires PowerLaw(p) && |field| >= 2
    ensures (|field| - 1) as real * Delta(p, k, me, field) == Duels(p, k, me, field)
  {
    hide Score, Duels;
    DuelsAreScore(p, k, me, field);
    Scale((|field| - 1) as real, k, Score(p, me, field));
  }

  lemma Scale(n: real, k: real, s: real)
    requires n > 0.0
    ensures n * (k / n * s) == k * s
  {
    assert n * (k / n) == k;
    assert n * (k / n * s) == n * (k / n) * s;
  }

  /** The two expectations of a pair are in the ratio of ten to the power of their distance over 400. */
  lemma Odds(p: Power, rating: real, opponent: real)
    requires PowerLaw(p)
    ensures ExpectedScore(p, rating, opponent) ==
            p((rating - opponent) / 400.0) * ExpectedScore(p, opponent, rating)
    ensures ExpectedScore(p, rating, opponent) + ExpectedScore(p, opponent, rating) == 1.0
  {
    var d := (rating - opponent) / 400.0;
    assert (opponent - rating) / 400.0 == -d;
    var x, y := p(d), p(-d);
    assert x > 0.0 && y > 0.0 && x * y == 1.0;
    assert ExpectedScore(p, rating, opponent) == 1.0 / (1.0 + y);
    assert ExpectedScore(p, opponent, rating) == 1.0 / (1.0 + x);
    OddsRatio(x, y);
  }

  lemma OddsRatio(x: real, y: real)
    requires x > 0.0 && y > 0.0 && x * y == 1.0
    ensures 1.0 / (1.0 + y) == x * (1.0 / (1.0 + x))
    ensures 1.0 / (1.0 + y) + 1.0 / (1.0 + x) == 1.0
  {
    Reciprocals(x, y);
    var b := 1.0 / (1.0 + x);
    assert b * (1.0 + x) == 1.0;
    assert 1.0 / (1.0 + y) == 1.0 - b == x * b;
  }

  lemma {:induction false} WinsAmongEquals(p: Power, me: Participant, others: seq<Participant>)
    requires PowerLaw(p)
    requires forall i :: 0 <= i < |others| ==>
               others[i].accountId != me.accountId && others[i].rating == me.rating && me.rank < others[i].rank
    ensures Score(p, me, others) == 0.5 * |others| as real
  {
    if others != [] {
      var n := |others| - 1;
      WinsAmongEquals(p, me, others[..n]);
      EvenOdds(p, me.rating);
    }
  }

  /** Whoever beats any number of equals gains half the k-factor. */
  lemma WinnerOfEquals(p: Power, k: real, me: Participant, others: seq<Participant>)
    requires PowerLaw(p) && others != []
    requires forall i :: 0 <= i < |others| ==>
               others[i].accountId != me.accountId && others[i].rating == me.rating && me.rank < others[i].rank
    ensures Delta(p, k, me, others + [me]) == k / 2.0
  {
    WinsAmongEquals(p, me, others);
    ScoreStep(p, me, others, me);
    hide Score;
    var n := |others| as real;
    Scale(n, k, 0.5);
    assert k / n * (0.5 * n) == n * (k / n * 0.5);
  }
}
