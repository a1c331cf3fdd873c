/** Finished matches, settled live from their final stacks and rebuilt from the rows stored for them. */
module RatingMatches {
  import opened Elo
  import opened Prelude
  import opened RatingLedger
  import opened RatingOrder
  import opened RatingReplay
  import opened RatingTheorems
  import opened MatchResults

  /** A match as it ended, and what its status has become since. */
  datatype FinishedMatch = FinishedMatch(
    matchId: int, startedAt: int, completedAt: int, accounts: seq<AccountId>, stacks: seq<int>, status: MatchStatus)

  predicate Proper(m: FinishedMatch) {
    && |m.accounts| == |m.stacks| >= 2
    && forall i, j :: 0 <= i < j < |m.accounts| ==> m.accounts[i] != m.accounts[j]
  }

  predicate AllProper(done: seq<FinishedMatch>) {
    forall i :: 0 <= i < |done| ==> Proper(done[i])
  }

  /** The row stored for a match: every player under the rank the final standings give. */
  function RowOf(m: FinishedMatch): MatchRow
    requires Proper(m)
  {
    var standings := Standings(m.accounts, m.stacks);
    MatchRow(m.matchId, m.startedAt, m.completedAt, m.status,
             seq(|standings|, i requires 0 <= i < |standings| =>
               Player(standings[i].accountId, Some(standings[i].finishingRank))))
  }

  function Rows(done: seq<FinishedMatch>): (rows: seq<MatchRow>)
    requires AllProper(done)
    ensures |rows| == |done| && forall i :: 0 <= i < |done| ==> rows[i] == RowOf(done[i])
  {
    seq(|done|, i requires 0 <= i < |done| => RowOf(done[i]))
  }

  /** Live settlement: every match when it ends, by the results read off its final stacks. */
  function Live(p: Power, b: Book, done: seq<FinishedMatch>): Book
    requires PowerLaw(p) && AllProper(done)
  {
    if done == [] then b
    else
      var m := done[|done| - 1];
      Settled(p, Live(p, b, done[..|done| - 1]), m.matchId, RatingResults(m.accounts, m.stacks))
  }

  /** Reading a match back from its row gives the very results it was settled with. */
  lemma RowSettles(p: Power, b: Book, m: FinishedMatch)
    requires PowerLaw(p) && Proper(m)
    ensures Ranked(RowOf(m)) && Playable(RowOf(m))
    ensures Step(p, b, RowOf(m)) == Settled(p, b, m.matchId, RatingResults(m.accounts, m.stacks))
  {
    RowPlayable(m);
    hide Settled, Rank, ValidResults, Playable;
    assert ResultsOf(RowOf(m).players) == RatingResults(m.accounts, m.stacks);
  }

  lemma {:induction false} LiveIsReplay(p: Power, b: Book, done: seq<FinishedMatch>)
    requires PowerLaw(p) && AllProper(done)
    ensures AllPlayable(Rows(done)) && Live(p, b, done) == Replay(p, b, Rows(done))
  {
    hide Settled, RowOf, Proper, Playable;
    forall i | 0 <= i < |done| ensures Playable(Rows(done)[i]) {
      RowSettles(p, b, done[i]);
    }
    if done != [] {
      var n := |done| - 1;
      LiveIsReplay(p, b, done[..n]);
      assert Rows(done)[..n] == Rows(done[..n]);
      RowSettles(p, Live(p, b, done[..n]), done[n]);
    }
  }

  /** Completed, and begun in the batch. */
  predicate Counts(m: FinishedMatch, created: int) {
    m.status == Complete && m.startedAt >= created
  }

  function Counting(done: seq<FinishedMatch>, created: int): seq<FinishedMatch> {
    if done == [] then []
    else
      var m := done[|done| - 1];
      Counting(done[..|done| - 1], created) + if Counts(m, created) then [m] else []
  }

  lemma SameCondition(m: FinishedMatch, created: int)
    requires Proper(m)
    ensures Eligible(RowOf(m), created) == Counts(m, created)
  {
  }

  lemma RowsOneMore(done: seq<FinishedMatch>, m: FinishedMatch)
    requires AllProper(done) && Proper(m)
    ensures AllProper(done + [m]) && Rows(done + [m]) == Rows(done) + [RowOf(m)]
  {
    hide Proper, RowOf;
  }

  lemma {:induction false} CountingRows(done: seq<FinishedMatch>, created: int)
    requires AllProper(done)
    ensures AllProper(Counting(done, created)) && Rows(Counting(done, created)) == Kept(Rows(done), created)
  {
    if done != [] {
      var n := |done| - 1;
      assert Proper(done[n]) && AllProper(done[..n]) && done == done[..n] + [done[n]];
      hide Proper, RowOf, Counts, Eligible, AllProper, Rows;
      CountingRows(done[..n], created);
      SameCondition(done[n], created);
      RowsOneMore(done[..n], done[n]);
      RowsOneMore(Counting(done[..n], created), done[n]);
      assert (Rows(done[..n]) + [RowOf(done[n])])[..|Rows(done)| - 1] == Rows(done[..n]);
      assert Counting(done[..n], created) + [] == Counting(done[..n], created);
    }
  }

  /** Matches with a common player ended in the order they started in. */
  predicate InStartOrder(done: seq<FinishedMatch>)
    requires AllProper(done)
  {
    Agrees(Rows(done))
  }

  /**
   * A rebuild leaves the book that live settlement would have left had only the matches it keeps been
   * played, those complete and begun in the batch, if and only if those of them that share a player ended
   * in the order they started.
   */
  lemma RebuildIsLiveIff(p: Power, start: Book, b: Book, done: seq<FinishedMatch>, others: seq<MatchRow>, created: int,
                         rows: seq<MatchRow>)
    requires PowerLaw(p) && Fresh(start) && AllProper(done) && Stored(Rows(done), others, created, rows)
    ensures AllPlayable(rows) && AllProper(Counting(done, created))
    ensures SameBook(Rebuilt(p, b, rows), Live(p, start, Counting(done, created))) <==>
            InStartOrder(Counting(done, created))
  {
    hide Fresh, Stored, SameBook, Agrees, Rebuilt, Replay, Live, Rows, AllProper, AllPlayable;
    CountingRows(done, created);
    LiveIsReplay(p, start, Counting(done, created));
    RowsRebuildIff(p, start, b, Rows(done), others, created, rows);
  }

  /**
   * Rebuilding right after live settlement changes nothing that any account can see exactly when every
   * settled match is still complete and began in the batch, and matches with a common player ended in the
   * order they started.
   */
  lemma RebuildIsNoOpIff(p: Power, start: Book, done: seq<FinishedMatch>, others: seq<MatchRow>, created: int,
                         rows: seq<MatchRow>)
    requires PowerLaw(p) && Fresh(start) && AllProper(done) && Stored(Rows(done), others, created, rows)
    ensures AllPlayable(rows)
    ensures var live := Live(p, start, done);
            SameBook(Rebuilt(p, live, rows), live) <==>
            (forall i :: 0 <= i < |done| ==> Counts(done[i], created)) && InStartOrder(done)
  {
    hide Fresh, Stored, SameBook, Agrees, Rebuilt, Replay, Live, AllPlayable, Proper;
    LiveIsReplay(p, start, done);
    RowsNoOpIff(p, start, Rows(done), others, created, rows);
    forall i | 0 <= i < |done| ensures Eligible(Rows(done)[i], created) == Counts(done[i], created) {
    }
  }

  /**
   * Voiding a match and rebuilding gives what live settlement would have given without that match, if and
   * only if the remaining matches with a common player ended in the order they started.
   */
  lemma VoidThenRebuild(p: Power, start: Book, b: Book, done: seq<FinishedMatch>, k: nat, others: seq<MatchRow>,
                        created: int, rows: seq<MatchRow>)
    requires PowerLaw(p) && Fresh(start) && AllProper(done) && k < |done|
    requires forall i :: 0 <= i < |done| ==> Counts(done[i], created)
    requires AllProper(done[k := done[k].(status := Void)])
    requires Stored(Rows(done[k := done[k].(status := Void)]), others, created, rows)
    ensures AllPlayable(rows) && AllProper(Without(done, k))
    ensures SameBook(Rebuilt(p, b, rows), Live(p, start, Without(done, k))) <==> InStartOrder(Without(done, k))
  {
    hide Fresh, Stored, SameBook, Agrees, Rebuilt, Replay, Live, AllPlayable, Rows, AllProper;
    CountingWithout(done, k, created);
    RebuildIsLiveIff(p, start, b, done[k := done[k].(status := Void)], others, created, rows);
  }

  // ---------------------------------------------------------------------------------------------
  // Both conditions can fail
  // ---------------------------------------------------------------------------------------------

  predicate CommonPlayer(m: FinishedMatch, n: FinishedMatch) {
    exists a :: a in m.accounts && a in n.accounts
  }

  lemma InRow(m: FinishedMatch, a: AccountId)
    requires Proper(m)
    ensures In(RowOf(m), a) <==> a in m.accounts
  {
    var row := RowOf(m);
    assert forall i :: 0 <= i < |row.players| ==> row.players[i].accountId == m.accounts[i];
    if a in m.accounts {
      var i :| 0 <= i < |m.accounts| && m.accounts[i] == a;
      assert row.players[i].accountId == a;
    }
  }

  lemma ShareIsCommon(m: FinishedMatch, n: FinishedMatch)
    requires Proper(m) && Proper(n)
    ensures Share(RowOf(m), RowOf(n)) <==> CommonPlayer(m, n)
  {
    var x, y := RowOf(m), RowOf(n);
    assert forall i :: 0 <= i < |x.players| ==> x.players[i].accountId == m.accounts[i];
    hide RowOf, In;
    if CommonPlayer(m, n) {
      var a :| a in m.accounts && a in n.accounts;
      InRow(n, a);
      var i :| 0 <= i < |m.accounts| && m.accounts[i] == a;
      assert In(y, x.players[i].accountId);
    }
    if Share(x, y) {
      var i :| 0 <= i < |x.players| && In(y, x.players[i].accountId);
      InRow(n, x.players[i].accountId);
    }
  }

  /** Matches that do not overlap in time for any of their players ended in the order they started in. */
  lemma SeparateMatchesAgree(done: seq<FinishedMatch>)
    requires AllProper(done) && forall i :: 0 <= i < |done| ==> done[i].startedAt < done[i].completedAt
    requires forall i, j :: 0 <= i < j < |done| && CommonPlayer(done[i], done[j]) ==>
               done[i].completedAt <= done[j].startedAt
    ensures InStartOrder(done)
  {
    hide Proper, CommonPlayer, Share;
    forall i, j | 0 <= i < j < |done| && Share(Rows(done)[i], Rows(done)[j])
      ensures Before(Rows(done)[i], Rows(done)[j])
    {
      ShareIsCommon(done[i], done[j]);
    }
  }

  /** A match of two players begun at time 0 and completed at time 5, in a batch created at time 3. */
  lemma StragglerLost(p: Power, start: Book)
    requires PowerLaw(p) && Fresh(start)
    ensures var m := FinishedMatch(1, 0, 5, [1, 2], [200, 0], Complete);
            && AllProper([m]) && Stored(Rows([m]), [], 3, [])
            && !SameBook(Rebuilt(p, Live(p, start, [m]), []), Live(p, start, [m]))
  {
    var m := FinishedMatch(1, 0, 5, [1, 2], [200, 0], Complete);
    RowPlayable(m);
    assert Rows([m]) == [RowOf(m)] == [RowOf(m)] + [];
    assert !Eligible([RowOf(m)][0], 3);
    KeptNone([RowOf(m)], 3);
    hide Live, Rebuilt, SameBook, Fresh, RowOf, Ranked, Playable;
    assert AllPlayable(Rows([m])) && AllRanked(Rows([m])) && Keyed(Rows([m]) + []);
    assert !Counts([m][0], 3);
    RebuildIsNoOpIff(p, start, [m], [], 3, []);
  }

  /** Begun at 10, completed at 20, left by account 1 in between. */
  function LongMatch(): FinishedMatch {
    FinishedMatch(1, 10, 20, [1, 2, 3], [0, 200, 100], Complete)
  }

  /** Played by account 1 after leaving the long match, and completed before it. */
  function ShortMatch(): FinishedMatch {
    FinishedMatch(2, 11, 15, [1, 4], [200, 0], Complete)
  }

  /** In the order they ended. */
  function Overlapping(): (done: seq<FinishedMatch>)
    ensures AllProper(done) && |done| == 2 && Counts(done[0], 0) && Counts(done[1], 0)
  {
    [ShortMatch(), LongMatch()]
  }

  /** In the order they started. */
  function OverlappingRows(): (rows: seq<MatchRow>)
    ensures rows == [Rows(Overlapping())[1], Rows(Overlapping())[0]] && AllPlayable(rows)
  {
    OverlapPlayable();
    [RowOf(LongMatch()), RowOf(ShortMatch())]
  }

  lemma OverlapPlayable()
    ensures var rows := Rows(Overlapping()); Playable(rows[0]) && Playable(rows[1]) && Ranked(rows[0]) && Ranked(rows[1])
  {
    RowPlayable(ShortMatch());
    RowPlayable(LongMatch());
  }

  lemma RowPlayable(m: FinishedMatch)
    requires Proper(m)
    ensures Playable(RowOf(m)) && Ranked(RowOf(m))
  {
    ResultsAreValid(m.accounts, m.stacks);
    hide Rank, ValidResults;
    assert ResultsOf(RowOf(m).players) == RatingResults(m.accounts, m.stacks);
  }

  /**
   * Whoever quits a match of three or more may start and finish another one before the first completes.
   * Both count, and the rebuild settles them the other way round.
   */
  lemma OverlapReordered(p: Power, start: Book)
    requires PowerLaw(p) && Fresh(start)
    ensures Stored(Rows(Overlapping()), [], 0, OverlappingRows())
    ensures var live := Live(p, start, Overlapping());
            !SameBook(Rebuilt(p, live, OverlappingRows()), live)
  {
    hide Live, Rebuilt, SameBook, Fresh, Stored, Overlapping, InStartOrder, Playable, Ranked, Eligible, Before, RowOf;
    OverlapFacts();
    OverlapPlayable();
    var rows := Rows(Overlapping());
    assert rows == [rows[0], rows[1]];
    PairStored(rows[0], rows[1], 0);
    RebuildIsNoOpIff(p, start, Overlapping(), [], 0, OverlappingRows());
  }

  lemma OverlapFacts()
    ensures var rows := Rows(Overlapping());
            && Eligible(rows[0], 0) && Eligible(rows[1], 0) && Before(rows[1], rows[0]) && rows[0].matchId != rows[1].matchId
            && !InStartOrder(Overlapping())
  {
    assert 1 in ShortMatch().accounts && 1 in LongMatch().accounts;
    ShareIsCommon(ShortMatch(), LongMatch());
    var rows := Rows(Overlapping());
    assert Share(rows[0], rows[1]) && !Before(rows[0], rows[1]);
  }

  /** Two settled matches, completed in the other order than they began. */
  lemma PairStored(m: MatchRow, n: MatchRow, created: int)
    requires Playable(m) && Ranked(m) && Eligible(m, created) && Playable(n) && Ranked(n) && Eligible(n, created)
    requires Before(n, m) && m.matchId != n.matchId
    ensures Stored([m, n], [], created, [n, m])
  {
    hide Playable, Ranked, Eligible, Before;
    var done := [m, n];
    assert done + [] == done;
    KeptAll(done, created);
    assert multiset([n, m]) == multiset{m, n} == multiset(done);
  }

  // ---------------------------------------------------------------------------------------------
  // Dropping one match
  // ---------------------------------------------------------------------------------------------

  lemma {:induction false} CountingAll(done: seq<FinishedMatch>, created: int)
    requires forall i :: 0 <= i < |done| ==> Counts(done[i], created)
    ensures Counting(done, created) == done
  {
    if done != [] {
      CountingAll(done[..|done| - 1], created);
    }
  }

  lemma {:induction false} CountingAppend(xs: seq<FinishedMatch>, ys: seq<FinishedMatch>, created: int)
    ensures Counting(xs + ys, created) == Counting(xs, created) + Counting(ys, created)
  {
    if ys == [] {
      assert xs + ys == xs;
    } else {
      CountingAppend(xs, ys[..|ys| - 1], created);
      assert (xs + ys)[..|xs + ys| - 1] == xs + ys[..|ys| - 1];
    }
  }

  lemma CountingAround(left: seq<FinishedMatch>, m: FinishedMatch, right: seq<FinishedMatch>, created: int)
    requires forall i :: 0 <= i < |left| ==> Counts(left[i], created)
    requires forall i :: 0 <= i < |right| ==> Counts(right[i], created)
    ensures Counting(left + [m.(status := Void)] + right, created) == left + right
  {
    hide Counts, Counting;
    var voided := m.(status := Void);
    VoidedCountsNothing(m, created);
    CountingAppend(left + [voided], right, created);
    CountingAppend(left, [voided], created);
    CountingAll(left, created);
    CountingAll(right, created);
  }

  lemma CountingWithout(done: seq<FinishedMatch>, k: nat, created: int)
    requires k < |done| && forall i :: 0 <= i < |done| ==> Counts(done[i], created)
    ensures Counting(done[k := done[k].(status := Void)], created) == Without(done, k)
  {
    hide Counts, Counting;
    assert done[k := done[k].(status := Void)] == done[..k] + [done[k].(status := Void)] + done[k + 1..];
    CountingAround(done[..k], done[k], done[k + 1..], created);
  }

  lemma VoidedCountsNothing(m: FinishedMatch, created: int)
    ensures Counting([m.(status := Void)], created) == []
  {
    assert [m.(status := Void)][..0] == [];
  }
}
