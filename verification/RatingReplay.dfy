/**
 * Live settlement against the rebuild. Live, a match is settled when it completes; the rebuild forgets
 * every record and settles the stored matches again in the order they started.
 */
module RatingReplay {
  import opened Elo
  import opened Prelude
  import opened RatingLedger

  datatype MatchStatus = Active | Complete | Void

  datatype Player = Player(accountId: AccountId, rank: Option<int>)

  datatype MatchRow = MatchRow(
    matchId: int, startedAt: int, completedAt: int, status: MatchStatus, players: seq<Player>)

  predicate Ranked(m: MatchRow) {
    forall i :: 0 <= i < |m.players| ==> m.players[i].rank.Some?
  }

  /** A stored rank of zero reads as a first place. */
  function RankOrFirst(rank: Option<int>): int {
    if rank.None? || rank.value == 0 then 1 else rank.value
  }

  function ResultsOf(players: seq<Player>): (results: seq<Settlement>)
    ensures |results| == |players|
    ensures forall i :: 0 <= i < |players| ==>
              results[i] == Settlement(players[i].accountId, RankOrFirst(players[i].rank))
  {
    if players == [] then []
    else
      var last := players[|players| - 1];
      ResultsOf(players[..|players| - 1]) + [Settlement(last.accountId, RankOrFirst(last.rank))]
  }

  predicate Playable(m: MatchRow) {
    Ranked(m) ==> ValidResults(ResultsOf(m.players))
  }

  predicate AllPlayable(rows: seq<MatchRow>) {
    forall i :: 0 <= i < |rows| ==> Playable(rows[i])
  }

  /** A stored match without a full set of ranks is passed over. */
  function Step(p: Power, b: Book, m: MatchRow): Book
    requires PowerLaw(p) && Playable(m)
  {
    if Ranked(m) then Settled(p, b, m.matchId, ResultsOf(m.players)) else b
  }

  function Replay(p: Power, b: Book, rows: seq<MatchRow>): Book
    requires PowerLaw(p) && AllPlayable(rows)
  {
    if rows == [] then b else Step(p, Replay(p, b, rows[..|rows| - 1]), rows[|rows| - 1])
  }

  function Cleared(b: Book): Book {
    Book(map a | a in b.ratings :: NEW_RECORD, [])
  }

  function Rebuilt(p: Power, b: Book, rows: seq<MatchRow>): Book
    requires PowerLaw(p) && AllPlayable(rows)
  {
    Replay(p, Cleared(b), rows)
  }

  predicate In(m: MatchRow, a: AccountId) {
    exists i :: 0 <= i < |m.players| && m.players[i].accountId == a
  }

  predicate Share(m: MatchRow, n: MatchRow) {
    exists i :: 0 <= i < |m.players| && In(n, m.players[i].accountId)
  }

  // ---------------------------------------------------------------------------------------------
  // One step
  // ---------------------------------------------------------------------------------------------

  /** The rows one account gets from one match; empty for everybody else. */
  function Gain(p: Power, b: Book, m: MatchRow, a: AccountId): seq<RatingChange>
    requires PowerLaw(p) && Playable(m)
  {
    if Ranked(m) then History(Changes(p, b.ratings, m.matchId, ResultsOf(m.players)), a) else []
  }

  lemma GainAt(p: Power, b: Book, m: MatchRow, i: nat)
    requires PowerLaw(p) && Playable(m) && Ranked(m) && i < |m.players| && |m.players| >= 2
    ensures var results := ResultsOf(m.players);
            Gain(p, b, m, m.players[i].accountId)
            == [Change(p, m.matchId, results[i], b.ratings, Field(b.ratings, results))]
  {
    RowsOfMatch(p, b.ratings, m.matchId, ResultsOf(m.players), m.players[i].accountId);
  }

  lemma StepView(p: Power, b: Book, m: MatchRow, a: AccountId)
    requires PowerLaw(p) && Playable(m)
    ensures ViewOf(Step(p, b, m), a) == Extended(ViewOf(b, a), Gain(p, b, m, a))
    ensures !In(m, a) ==> Gain(p, b, m, a) == [] && ViewOf(Step(p, b, m), a) == ViewOf(b, a)
    ensures In(m, a) && Ranked(m) ==> |Gain(p, b, m, a)| == 1 && Gain(p, b, m, a)[0].matchId == m.matchId
  {
    var v := ViewOf(b, a);
    assert v.history + [] == v.history;
    if Ranked(m) {
      var results := ResultsOf(m.players);
      SettledView(p, b, m.matchId, results, a);
      RowsOfMatch(p, b.ratings, m.matchId, results, a);
      if In(m, a) {
        var i :| 0 <= i < |m.players| && m.players[i].accountId == a;
        assert results[i].accountId == a;
      }
    }
  }

  lemma {:induction false} FieldDepends(b: map<AccountId, RatingRecord>, c: map<AccountId, RatingRecord>,
                                        results: seq<Settlement>)
    requires forall i :: 0 <= i < |results| ==> Lookup(b, results[i].accountId) == Lookup(c, results[i].accountId)
    ensures Field(b, results) == Field(c, results)
  {
    if results != [] {
      FieldDepends(b, c, results[..|results| - 1]);
    }
  }

  /** What a match does depends only on the records of those who play in it. */
  lemma GainDepends(p: Power, b: Book, c: Book, m: MatchRow)
    requires PowerLaw(p) && Playable(m)
    requires forall a :: In(m, a) ==> ViewOf(b, a) == ViewOf(c, a)
    ensures forall a :: Gain(p, b, m, a) == Gain(p, c, m, a)
  {
    if Ranked(m) {
      var results := ResultsOf(m.players);
      forall i | 0 <= i < |results|
        ensures Lookup(b.ratings, results[i].accountId) == Lookup(c.ratings, results[i].accountId)
      {
        assert In(m, results[i].accountId);
        assert ViewOf(b, results[i].accountId) == ViewOf(c, results[i].accountId);
      }
      FieldDepends(b.ratings, c.ratings, results);
      assert Changes(p, b.ratings, m.matchId, results) == Changes(p, c.ratings, m.matchId, results);
    }
  }

  lemma StepRespects(p: Power, b: Book, c: Book, m: MatchRow)
    requires PowerLaw(p) && Playable(m) && SameBook(b, c)
    ensures SameBook(Step(p, b, m), Step(p, c, m))
  {
    GainDepends(p, b, c, m);
    forall a ensures ViewOf(Step(p, b, m), a) == ViewOf(Step(p, c, m), a) {
      StepView(p, b, m, a);
      StepView(p, c, m, a);
    }
  }

  /** Matches without a common player may be settled in either order. */
  lemma StepsCommute(p: Power, b: Book, m: MatchRow, n: MatchRow)
    requires PowerLaw(p) && Playable(m) && Playable(n) && !Share(m, n)
    ensures SameBook(Step(p, Step(p, b, m), n), Step(p, Step(p, b, n), m))
  {
    forall a | In(n, a) ensures ViewOf(Step(p, b, m), a) == ViewOf(b, a) {
      NotShared(m, n, a);
      StepView(p, b, m, a);
    }
    forall a | In(m, a) ensures ViewOf(Step(p, b, n), a) == ViewOf(b, a) {
      NotShared(m, n, a);
      StepView(p, b, n, a);
    }
    GainDepends(p, Step(p, b, m), b, n);
    GainDepends(p, Step(p, b, n), b, m);
    forall a ensures ViewOf(Step(p, Step(p, b, m), n), a) == ViewOf(Step(p, Step(p, b, n), m), a) {
      hide Step, Gain;
      NotShared(m, n, a);
      StepView(p, b, m, a);
      StepView(p, b, n, a);
      StepView(p, Step(p, b, m), n, a);
      StepView(p, Step(p, b, n), m, a);
    }
  }

  lemma NotShared(m: MatchRow, n: MatchRow, a: AccountId)
    requires !Share(m, n)
    ensures !(In(m, a) && In(n, a))
  {
  }

  // ---------------------------------------------------------------------------------------------
  // Whole replays
  // ---------------------------------------------------------------------------------------------

  lemma ReplayOne(p: Power, b: Book, rows: seq<MatchRow>, m: MatchRow)
    requires PowerLaw(p) && AllPlayable(rows + [m])
    ensures AllPlayable(rows) && Playable(m)
    ensures Replay(p, b, rows + [m]) == Step(p, Replay(p, b, rows), m)
  {
    assert (rows + [m])[|rows|] == m;
    assert forall i :: 0 <= i < |rows| ==> (rows + [m])[i] == rows[i];
    assert (rows + [m])[..|rows|] == rows;
  }

  lemma {:induction false} ReplayRespects(p: Power, b: Book, c: Book, rows: seq<MatchRow>)
    requires PowerLaw(p) && AllPlayable(rows) && SameBook(b, c)
    ensures SameBook(Replay(p, b, rows), Replay(p, c, rows))
  {
    if rows != [] {
      var n := |rows| - 1;
      ReplayRespects(p, b, c, rows[..n]);
      StepRespects(p, Replay(p, b, rows[..n]), Replay(p, c, rows[..n]), rows[n]);
    }
  }

  /** A match may be postponed past matches it shares no player with. */
  lemma {:induction false} Postpone(p: Power, b: Book, pre: seq<MatchRow>, x: MatchRow, post: seq<MatchRow>)
    requires PowerLaw(p) && AllPlayable(pre) && Playable(x) && AllPlayable(post)
    requires forall i :: 0 <= i < |post| ==> !Share(x, post[i])
    ensures AllPlayable(pre + [x] + post) && AllPlayable(pre + post)
    ensures SameBook(Replay(p, b, pre + [x] + post), Step(p, Replay(p, b, pre + post), x))
    decreases |post|
  {
    hide Step, Share, Playable;
    if post == [] {
      assert pre + [x] + post == pre + [x] && pre + post == pre;
      ReplayOne(p, b, pre, x);
    } else {
      hide SameBook;
      var n := |post| - 1;
      var rest, y := post[..n], post[n];
      Postpone(p, b, pre, x, rest);
      assert post == rest + [y];
      assert pre + [x] + post == pre + [x] + rest + [y];
      assert pre + post == (pre + rest) + [y];
      ReplayOne(p, b, pre + [x] + rest, y);
      ReplayOne(p, b, pre + rest, y);
      var early, late := Replay(p, b, pre + [x] + rest), Replay(p, b, pre + rest);
      StepRespects(p, early, Step(p, late, x), y);
      StepsCommute(p, late, x, y);
      SameTransitive(Step(p, early, y), Step(p, Step(p, late, x), y), Step(p, Step(p, late, y), x));
    }
  }

  lemma SameTransitive(b: Book, c: Book, d: Book)
    requires SameBook(b, c) && SameBook(c, d)
    ensures SameBook(b, d)
  {
    forall a ensures ViewOf(b, a) == ViewOf(d, a) {
      assert ViewOf(b, a) == ViewOf(c, a);
    }
  }

  /** The order of the rebuild query. */
  predicate Before(m: MatchRow, n: MatchRow) {
    m.startedAt < n.startedAt || (m.startedAt == n.startedAt && m.matchId < n.matchId)
  }

  predicate Ordered(rows: seq<MatchRow>) {
    forall i, j :: 0 <= i < j < |rows| ==> Before(rows[i], rows[j])
  }

  /** Whenever two matches have a common player, the one settled first also comes first in the query. */
  predicate Agrees(done: seq<MatchRow>) {
    forall i, j :: 0 <= i < j < |done| && Share(done[i], done[j]) ==> Before(done[i], done[j])
  }

  /**
   * Settlement order does not matter beyond the order of matches with common players: replaying the
   * same matches sorted by start gives every account the same record and the same history.
   */
  lemma {:induction false} SortedReplayAgrees(p: Power, b: Book, done: seq<MatchRow>, rows: seq<MatchRow>)
    requires PowerLaw(p) && AllPlayable(done) && AllPlayable(rows)
    requires multiset(done) == multiset(rows) && Ordered(rows) && Agrees(done)
    ensures SameBook(Replay(p, b, done), Replay(p, b, rows))
    decreases |rows|
  {
    if rows == [] {
      assert |multiset(done)| == 0;
    } else {
      var n := |rows| - 1;
      var k := TakeLast(rows, done);
      var pre, post, x := done[..k], done[k + 1..], rows[n];
      assert done == pre + [x] + post;
      forall i | 0 <= i < |post| ensures !Share(x, post[i]) {
        LastIsLast(done, rows, k + 1 + i);
        assert post[i] == done[k + 1 + i];
      }
      assert AllPlayable(pre) && AllPlayable(post);
      Postpone(p, b, pre, x, post);
      AgreesWithout(done, k);
      SortedReplayAgrees(p, b, pre + post, rows[..n]);
      StepRespects(p, Replay(p, b, pre + post), Replay(p, b, rows[..n]), x);
    }
  }

  lemma LastIsLast(done: seq<MatchRow>, rows: seq<MatchRow>, j: nat)
    requires multiset(done) == multiset(rows) && Ordered(rows) && j < |done| && rows != []
    ensures !Before(rows[|rows| - 1], done[j])
  {
    assert done[j] in multiset(done);
    var i :| 0 <= i < |rows| && rows[i] == done[j];
    if i < |rows| - 1 {
      assert Before(rows[i], rows[|rows| - 1]);
    }
  }

  lemma AgreesWithout(done: seq<MatchRow>, k: nat)
    requires Agrees(done) && k < |done|
    ensures Agrees(Without(done, k))
  {
    var rest := Without(done, k);
    forall i, j | 0 <= i < j < |rest| && Share(rest[i], rest[j]) ensures Before(rest[i], rest[j]) {
      var i', j' := if i < k then i else i + 1, if j < k then j else j + 1;
      assert rest[i] == done[i'] && rest[j] == done[j'];
    }
  }
}
