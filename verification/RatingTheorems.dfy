/** What the rebuild promises about live settlement, and what rounding can do to the pool of points. */
module RatingTheorems {
  import opened Elo
  import opened Prelude
  import opened RatingLedger
  import opened RatingOrder
  import opened RatingReplay
  import opened Rounding

  lemma ClearedIsFresh(b: Book)
    ensures Fresh(Cleared(b))
  {
  }

  predicate Eligible(m: MatchRow, created: int) {
    m.status == Complete && m.startedAt >= created
  }

  function Kept(rows: seq<MatchRow>, created: int): seq<MatchRow> {
    if rows == [] then []
    else
      var m := rows[|rows| - 1];
      Kept(rows[..|rows| - 1], created) + if Eligible(m, created) then [m] else []
  }

  /** The rows a rebuild reads: completed matches begun in the batch, sorted by start and then by id. */
  predicate IsQuery(rows: seq<MatchRow>, table: seq<MatchRow>, created: int) {
    Ordered(rows) && multiset(rows) == multiset(Kept(table, created))
  }

  lemma {:induction false} KeptIn(rows: seq<MatchRow>, created: int, k: nat) returns (i: nat)
    requires k < |Kept(rows, created)|
    ensures i < |rows| && rows[i] == Kept(rows, created)[k] && Eligible(rows[i], created)
  {
    var n := |rows| - 1;
    if k < |Kept(rows[..n], created)| {
      i := KeptIn(rows[..n], created, k);
    } else {
      i := n;
    }
  }

  lemma KeptPlayable(done: seq<MatchRow>, created: int)
    requires AllPlayable(done)
    ensures AllPlayable(Kept(done, created))
  {
    forall k | 0 <= k < |Kept(done, created)| ensures Playable(Kept(done, created)[k]) {
      var i := KeptIn(done, created, k);
    }
  }

  lemma {:induction false} KeptAppend(xs: seq<MatchRow>, ys: seq<MatchRow>, created: int)
    ensures Kept(xs + ys, created) == Kept(xs, created) + Kept(ys, created)
  {
    if ys == [] {
      assert xs + ys == xs;
    } else {
      KeptAppend(xs, ys[..|ys| - 1], created);
      assert (xs + ys)[..|xs + ys| - 1] == xs + ys[..|ys| - 1];
    }
  }

  lemma {:induction false} KeptNone(rows: seq<MatchRow>, created: int)
    requires forall i :: 0 <= i < |rows| ==> !Eligible(rows[i], created)
    ensures Kept(rows, created) == []
  {
    if rows != [] {
      KeptNone(rows[..|rows| - 1], created);
    }
  }

  lemma {:induction false} KeptAll(rows: seq<MatchRow>, created: int)
    requires forall i :: 0 <= i < |rows| ==> Eligible(rows[i], created)
    ensures Kept(rows, created) == rows
  {
    if rows != [] {
      KeptAll(rows[..|rows| - 1], created);
    }
  }

  lemma QueryPlayable(rows: seq<MatchRow>, kept: seq<MatchRow>)
    requires AllPlayable(kept) && multiset(rows) == multiset(kept)
    ensures AllPlayable(rows)
  {
    forall i | 0 <= i < |rows| ensures Playable(rows[i]) {
      assert rows[i] in multiset(kept);
    }
  }

  /** Match ids are keys of the table. */
  predicate Keyed(table: seq<MatchRow>) {
    forall i, j :: 0 <= i < j < |table| ==> table[i].matchId != table[j].matchId
  }

  /**
   * What the rebuild finds: the matches settled live, in the order they completed, and any other rows it
   * passes over, be they active, void or from an earlier batch.
   */
  predicate Stored(done: seq<MatchRow>, others: seq<MatchRow>, created: int, rows: seq<MatchRow>) {
    && AllPlayable(done) && AllRanked(done) && Keyed(done + others)
    && (forall i :: 0 <= i < |others| ==> !Eligible(others[i], created))
    && IsQuery(rows, done + others, created)
  }

  lemma StoredKept(done: seq<MatchRow>, others: seq<MatchRow>, created: int, rows: seq<MatchRow>)
    requires Stored(done, others, created, rows)
    ensures multiset(rows) == multiset(Kept(done, created)) && Ordered(rows)
  {
    hide Eligible, Keyed, AllPlayable, AllRanked, Ordered;
    KeptAppend(done, others, created);
    KeptNone(others, created);
    assert Kept(done, created) + [] == Kept(done, created);
  }

  lemma KeptMembers(done: seq<MatchRow>, created: int, rows: seq<MatchRow>)
    requires multiset(rows) == multiset(Kept(done, created))
    ensures forall m :: m in rows ==> m in done && Eligible(m, created)
  {
    hide Eligible;
    forall m | m in rows ensures m in done && Eligible(m, created) {
      assert m in multiset(Kept(done, created));
      var k :| 0 <= k < |Kept(done, created)| && Kept(done, created)[k] == m;
      var i := KeptIn(done, created, k);
    }
  }

  lemma KeyedRows(done: seq<MatchRow>, others: seq<MatchRow>, rows: seq<MatchRow>)
    requires Keyed(done + others) && forall m :: m in rows ==> m in done
    ensures SameIdSameRow(done, rows)
  {
    forall i, j | 0 <= i < |done| && 0 <= j < |rows| && done[i].matchId == rows[j].matchId ensures done[i] == rows[j] {
      assert rows[j] in done;
      var k :| 0 <= k < |done| && done[k] == rows[j];
      assert (done + others)[i] == done[i] && (done + others)[k] == done[k];
    }
  }

  lemma StoredFacts(done: seq<MatchRow>, others: seq<MatchRow>, created: int, rows: seq<MatchRow>)
    requires Stored(done, others, created, rows)
    ensures multiset(rows) == multiset(Kept(done, created)) && Ordered(rows)
    ensures AllPlayable(Kept(done, created)) && AllPlayable(rows) && SameIdSameRow(done, rows)
    ensures AllPlayable(done) && AllRanked(done)
    ensures forall m :: m in rows ==> m in done && Eligible(m, created)
  {
    hide Eligible, Keyed, AllPlayable, AllRanked, Ordered, Kept, SameIdSameRow, IsQuery;
    StoredKept(done, others, created, rows);
    KeptPlayable(done, created);
    QueryPlayable(rows, Kept(done, created));
    KeptMembers(done, created, rows);
    KeyedRows(done, others, rows);
  }

  /** What the rebuild leaves does not depend on what was there before. */
  lemma RebuiltFresh(p: Power, start: Book, b: Book, rows: seq<MatchRow>)
    requires PowerLaw(p) && Fresh(start) && AllPlayable(rows)
    ensures SameBook(Rebuilt(p, b, rows), Replay(p, start, rows))
  {
    ClearedIsFresh(b);
    ReplayRespects(p, Cleared(b), start, rows);
  }

  /**
   * A rebuild leaves the book that live settlement would have left had only the matches it keeps been
   * played, those complete and begun in the batch, if and only if those of them that share a player were
   * settled in the order they started.
   */
  lemma RowsRebuildIff(p: Power, start: Book, b: Book, done: seq<MatchRow>, others: seq<MatchRow>, created: int,
                         rows: seq<MatchRow>)
    requires PowerLaw(p) && Fresh(start) && Stored(done, others, created, rows)
    ensures AllPlayable(Kept(done, created)) && AllPlayable(rows)
    ensures SameBook(Rebuilt(p, b, rows), Replay(p, start, Kept(done, created))) <==> Agrees(Kept(done, created))
  {
    var kept := Kept(done, created);
    StoredFacts(done, others, created, rows);
    KeptRanked(done, created);
    RebuiltFresh(p, start, b, rows);
    hide Stored, Rebuilt, Replay, Fresh, Kept, AllRanked, Eligible;
    if Agrees(kept) {
      SortedReplayAgrees(p, start, kept, rows);
      SameTransitive(Rebuilt(p, b, rows), Replay(p, start, rows), Replay(p, start, kept));
    }
    if SameBook(Rebuilt(p, b, rows), Replay(p, start, kept)) {
      SameTransitive(Replay(p, start, kept), Rebuilt(p, b, rows), Replay(p, start, rows));
      SameBookSameOrder(p, start, kept, rows);
    }
  }

  lemma KeptRanked(done: seq<MatchRow>, created: int)
    requires AllRanked(done)
    ensures AllRanked(Kept(done, created))
    ensures forall rows :: SameIdSameRow(done, rows) ==> SameIdSameRow(Kept(done, created), rows)
  {
    forall k | 0 <= k < |Kept(done, created)| ensures Kept(done, created)[k] in done {
      var i := KeptIn(done, created, k);
    }
  }

  /**
   * Rebuilding right after live settlement changes nothing that any account can see exactly when every
   * settled match is still complete and began in the batch, and matches with a common player completed in
   * the order they started.
   */
  lemma RowsNoOpIff(p: Power, start: Book, done: seq<MatchRow>, others: seq<MatchRow>, created: int,
                         rows: seq<MatchRow>)
    requires PowerLaw(p) && Fresh(start) && Stored(done, others, created, rows)
    ensures AllPlayable(rows)
    ensures var live := Replay(p, start, done);
            SameBook(Rebuilt(p, live, rows), live) <==>
            (forall i :: 0 <= i < |done| ==> Eligible(done[i], created)) && Agrees(done)
  {
    var live := Replay(p, start, done);
    StoredFacts(done, others, created, rows);
    RebuiltFresh(p, start, live, rows);
    hide Replay, Rebuilt, Fresh, Ordered, Agrees;
    if (forall i :: 0 <= i < |done| ==> Eligible(done[i], created)) && Agrees(done) {
      KeptAll(done, created);
      SortedReplayAgrees(p, start, done, rows);
      SameTransitive(Rebuilt(p, live, rows), Replay(p, start, rows), live);
    }
    if SameBook(Rebuilt(p, live, rows), live) {
      SameTransitive(live, Rebuilt(p, live, rows), Replay(p, start, rows));
      SameBookSameOrder(p, start, done, rows);
    }
  }

  /**
   * Voiding a match and rebuilding gives what live settlement would have given without that match, if and
   * only if the remaining matches with a common player completed in the order they started.
   */
  lemma RowsVoidRebuild(p: Power, start: Book, b: Book, done: seq<MatchRow>, k: nat, others: seq<MatchRow>,
                        created: int, rows: seq<MatchRow>)
    requires PowerLaw(p) && Fresh(start) && k < |done|
    requires forall i :: 0 <= i < |done| ==> Eligible(done[i], created)
    requires Stored(done[k := done[k].(status := Void)], others, created, rows)
    ensures AllPlayable(rows) && AllPlayable(Without(done, k))
    ensures SameBook(Rebuilt(p, b, rows), Replay(p, start, Without(done, k))) <==> Agrees(Without(done, k))
  {
    KeptWithout(done, k, created);
    hide Stored, Fresh, Kept, SameBook, AllPlayable, Agrees;
    RowsRebuildIff(p, start, b, done[k := done[k].(status := Void)], others, created, rows);
  }

  lemma KeptWithout(done: seq<MatchRow>, k: nat, created: int)
    requires k < |done| && forall i :: 0 <= i < |done| ==> Eligible(done[i], created)
    ensures Kept(done[k := done[k].(status := Void)], created) == Without(done, k)
  {
    var voided := done[k].(status := Void);
    assert done[k := voided] == done[..k] + [voided] + done[k + 1..];
    KeptAppend(done[..k] + [voided], done[k + 1..], created);
    KeptAppend(done[..k], [voided], created);
    KeptNone([voided], created);
    KeptAll(done[..k], created);
    KeptAll(done[k + 1..], created);
  }

  // ---------------------------------------------------------------------------------------------
  // Order of players inside a match
  // ---------------------------------------------------------------------------------------------

  /** The same match, its players possibly listed in another order. */
  predicate SameMatch(m: MatchRow, n: MatchRow) {
    m.matchId == n.matchId && multiset(m.players) == multiset(n.players)
  }

  lemma {:induction false} FieldWithout(ratings: map<AccountId, RatingRecord>, players: seq<Player>, k: nat)
    requires k < |players|
    ensures Field(ratings, ResultsOf(Without(players, k))) == Without(Field(ratings, ResultsOf(players)), k)
  {
    hide Entrant;
    var left, right := Field(ratings, ResultsOf(Without(players, k))), Without(Field(ratings, ResultsOf(players)), k);
    forall i | 0 <= i < |left| ensures left[i] == right[i] {
      WithoutAt(players, k, i);
      WithoutAt(Field(ratings, ResultsOf(players)), k, i);
      assert left[i] == Entrant(ratings, ResultsOf(Without(players, k))[i]);
    }
  }

  lemma {:induction false} FieldPermutes(ratings: map<AccountId, RatingRecord>, ps: seq<Player>, qs: seq<Player>)
    requires multiset(ps) == multiset(qs)
    ensures multiset(Field(ratings, ResultsOf(ps))) == multiset(Field(ratings, ResultsOf(qs)))
    decreases |ps|
  {
    if ps == [] {
      assert |multiset(qs)| == 0;
    } else {
      var n := |ps| - 1;
      var k := TakeLast(ps, qs);
      FieldPermutes(ratings, ps[..n], Without(qs, k));
      FieldWithout(ratings, ps, n);
      FieldWithout(ratings, qs, k);
      assert Without(ps, n) == ps[..n];
      var f, g := Field(ratings, ResultsOf(ps)), Field(ratings, ResultsOf(qs));
      assert f[n] == Entrant(ratings, ResultsOf(ps)[n]) == Entrant(ratings, ResultsOf(qs)[k]) == g[k];
      hide Field, ResultsOf, Entrant;
      PutBack(f, n);
      PutBack(g, k);
    }
  }

  lemma StepReordered(p: Power, b: Book, m: MatchRow, n: MatchRow)
    requires PowerLaw(p) && Playable(m) && Playable(n) && SameMatch(m, n)
    ensures SameBook(Step(p, b, m), Step(p, b, n))
  {
    forall x | x in multiset(m.players) ensures x in m.players && x in n.players {
      assert x in multiset(n.players);
    }
    RankedReordered(m, n);
    if Ranked(m) {
      FieldPermutes(b.ratings, m.players, n.players);
      forall a ensures ViewOf(Step(p, b, m), a) == ViewOf(Step(p, b, n), a) {
        StepView(p, b, m, a);
        StepView(p, b, n, a);
        GainReordered(p, b, m, n, a);
      }
    }
  }

  lemma RankedReordered(m: MatchRow, n: MatchRow)
    requires SameMatch(m, n)
    ensures Ranked(m) <==> Ranked(n)
  {
    assert forall i :: 0 <= i < |m.players| ==> m.players[i] in multiset(n.players);
    assert forall i :: 0 <= i < |n.players| ==> n.players[i] in multiset(m.players);
  }

  lemma ChangePermutes(p: Power, matchId: int, result: Settlement, ratings: map<AccountId, RatingRecord>,
                       f: seq<Participant>, g: seq<Participant>)
    requires PowerLaw(p) && multiset(f) == multiset(g) && |f| >= 2
    ensures |g| >= 2 && Change(p, matchId, result, ratings, f) == Change(p, matchId, result, ratings, g)
  {
    hide Delta, Quantize, Entrant;
    DeltaPermutes(p, K_FACTOR, Entrant(ratings, result), f, g);
  }

  lemma GainReordered(p: Power, b: Book, m: MatchRow, n: MatchRow, a: AccountId)
    requires PowerLaw(p) && Playable(m) && Playable(n) && Ranked(m) && Ranked(n) && SameMatch(m, n)
    requires multiset(Field(b.ratings, ResultsOf(m.players))) == multiset(Field(b.ratings, ResultsOf(n.players)))
    ensures Gain(p, b, m, a) == Gain(p, b, n, a)
  {
    assert |ResultsOf(m.players)| >= 2 && |ResultsOf(n.players)| >= 2;
    hide Gain, Change, Field, ValidResults, PowerLaw, Ranked, Playable;
    if In(m, a) {
      var i, j := FindReordered(m, n, a);
      GainAt(p, b, m, i);
      GainAt(p, b, n, j);
      var rm, rn := ResultsOf(m.players), ResultsOf(n.players);
      ChangePermutes(p, m.matchId, rm[i], b.ratings, Field(b.ratings, rm), Field(b.ratings, rn));
    } else {
      if In(n, a) {
        var j, i := FindReordered(n, m, a);
      }
      StepView(p, b, m, a);
      StepView(p, b, n, a);
    }
  }

  lemma FindReordered(m: MatchRow, n: MatchRow, a: AccountId) returns (i: nat, j: nat)
    requires SameMatch(m, n) && In(m, a)
    ensures i < |m.players| && j < |n.players| && m.players[i] == n.players[j] && m.players[i].accountId == a
  {
    i :| 0 <= i < |m.players| && m.players[i].accountId == a;
    assert m.players[i] in multiset(n.players);
    j :| 0 <= j < |n.players| && n.players[j] == m.players[i];
  }

  /** The rebuild may list the players of each match in any order. */
  lemma {:induction false} PlayerOrderIrrelevant(p: Power, b: Book, rows: seq<MatchRow>, other: seq<MatchRow>)
    requires PowerLaw(p) && AllPlayable(rows) && AllPlayable(other) && |rows| == |other|
    requires forall i :: 0 <= i < |rows| ==> SameMatch(rows[i], other[i])
    ensures SameBook(Replay(p, b, rows), Replay(p, b, other))
  {
    hide Step, SameMatch, Playable;
    if rows != [] {
      var n := |rows| - 1;
      PlayerOrderIrrelevant(p, b, rows[..n], other[..n]);
      hide SameBook;
      var c, d := Replay(p, b, rows[..n]), Replay(p, b, other[..n]);
      StepRespects(p, c, d, rows[n]);
      StepReordered(p, d, rows[n], other[n]);
      SameTransitive(Step(p, c, rows[n]), Step(p, d, rows[n]), Step(p, d, other[n]));
    }
  }

  // ---------------------------------------------------------------------------------------------
  // Live runs
  // ---------------------------------------------------------------------------------------------

  /** What happens to the ledger between two rebuilds: accounts are opened and matches are settled. */
  datatype LiveEvent = Opened(accountId: AccountId) | Finished(row: MatchRow)

  function Matches(events: seq<LiveEvent>): seq<MatchRow> {
    if events == [] then []
    else
      var e := events[|events| - 1];
      Matches(events[..|events| - 1]) + if e.Finished? then [e.row] else []
  }

  function Run(p: Power, b: Book, events: seq<LiveEvent>): Book
    requires PowerLaw(p) && forall i :: 0 <= i < |events| ==> events[i].Finished? ==> Playable(events[i].row)
  {
    if events == [] then b
    else
      var prior := Run(p, b, events[..|events| - 1]);
      match events[|events| - 1]
      case Opened(a) => Initialized(prior, a)
      case Finished(row) => Step(p, prior, row)
  }

  /** Opening accounts, before, between or after matches, never changes what anybody's rating is. */
  lemma {:induction false} OpeningIsInvisible(p: Power, b: Book, events: seq<LiveEvent>)
    requires PowerLaw(p) && forall i :: 0 <= i < |events| ==> events[i].Finished? ==> Playable(events[i].row)
    ensures AllPlayable(Matches(events))
    ensures SameBook(Run(p, b, events), Replay(p, b, Matches(events)))
  {
    if events != [] {
      var n := |events| - 1;
      assert forall i :: 0 <= i < n ==> events[..n][i] == events[i];
      OpeningIsInvisible(p, b, events[..n]);
      var prior, rows := Run(p, b, events[..n]), Matches(events[..n]);
      hide Step, Replay;
      match events[n]
      case Opened(a) =>
        assert Matches(events) == rows;
        InitializedView(prior, a);
      case Finished(row) =>
        assert AllPlayable(rows + [row]);
        ReplayOne(p, b, rows, row);
        StepRespects(p, prior, Replay(p, b, rows), row);
    }
  }

  // ---------------------------------------------------------------------------------------------
  // Rebuilding twice
  // ---------------------------------------------------------------------------------------------

  /** The same book with possibly more rows for accounts that have not played. */
  ghost predicate Widens(b: Book, c: Book) {
    && b.changes == c.changes
    && (forall a :: Lookup(b.ratings, a) == Lookup(c.ratings, a))
    && b.ratings.Keys <= c.ratings.Keys
  }

  function Accounts(results: seq<Settlement>): set<AccountId> {
    set i | 0 <= i < |results| :: results[i].accountId
  }

  lemma {:induction false} PostKeys(ratings: map<AccountId, RatingRecord>, cs: seq<RatingChange>)
    ensures Post(ratings, cs).Keys == ratings.Keys + set i | 0 <= i < |cs| :: cs[i].accountId
  {
    if cs != [] {
      var n := |cs| - 1;
      PostKeys(ratings, cs[..n]);
      assert forall i :: 0 <= i < n ==> cs[..n][i] == cs[i];
    }
  }

  lemma SettledKeys(p: Power, b: Book, matchId: int, results: seq<Settlement>)
    requires PowerLaw(p) && |results| >= 2
    ensures Settled(p, b, matchId, results).ratings.Keys == b.ratings.Keys + Accounts(results)
  {
    var cs := Changes(p, b.ratings, matchId, results);
    PostKeys(EnrollAll(b.ratings, results), cs);
    forall a ensures a in Settled(p, b, matchId, results).ratings.Keys <==> a in b.ratings.Keys + Accounts(results) {
      EnrollAllLookup(b.ratings, results, a);
      assert forall i :: 0 <= i < |results| ==> cs[i].accountId == results[i].accountId;
    }
  }

  lemma SettledWidens(p: Power, b: Book, c: Book, matchId: int, results: seq<Settlement>)
    requires PowerLaw(p) && |results| >= 2 && Widens(b, c)
    ensures var b', c' := Settled(p, b, matchId, results), Settled(p, c, matchId, results);
            Widens(b', c') && c'.ratings.Keys == b'.ratings.Keys + c.ratings.Keys
  {
    FieldDepends(b.ratings, c.ratings, results);
    var cs := Changes(p, b.ratings, matchId, results);
    assert Changes(p, c.ratings, matchId, results) == cs;
    SettledKeys(p, b, matchId, results);
    SettledKeys(p, c, matchId, results);
    forall a
      ensures Lookup(Settled(p, b, matchId, results).ratings, a) == Lookup(Settled(p, c, matchId, results).ratings, a)
    {
      hide Post;
      EnrollAllLookup(b.ratings, results, a);
      EnrollAllLookup(c.ratings, results, a);
      PostLookup(EnrollAll(b.ratings, results), cs, a);
      PostLookup(EnrollAll(c.ratings, results), cs, a);
    }
  }

  lemma {:induction false} ReplayWidens(p: Power, b: Book, c: Book, rows: seq<MatchRow>)
    requires PowerLaw(p) && AllPlayable(rows) && Widens(b, c)
    ensures var b', c' := Replay(p, b, rows), Replay(p, c, rows);
            Widens(b', c') && c'.ratings.Keys == b'.ratings.Keys + c.ratings.Keys
  {
    if rows != [] {
      var n := |rows| - 1;
      ReplayWidens(p, b, c, rows[..n]);
      if Ranked(rows[n]) {
        hide Settled, Widens;
        SettledWidens(p, Replay(p, b, rows[..n]), Replay(p, c, rows[..n]), rows[n].matchId, ResultsOf(rows[n].players));
        SettledKeys(p, Replay(p, b, rows[..n]), rows[n].matchId, ResultsOf(rows[n].players));
      }
    }
  }

  lemma {:induction false} ReplayGrows(p: Power, b: Book, rows: seq<MatchRow>)
    requires PowerLaw(p) && AllPlayable(rows)
    ensures b.ratings.Keys <= Replay(p, b, rows).ratings.Keys
  {
    if rows != [] {
      var n := |rows| - 1;
      ReplayGrows(p, b, rows[..n]);
      if Ranked(rows[n]) {
        SettledKeys(p, Replay(p, b, rows[..n]), rows[n].matchId, ResultsOf(rows[n].players));
      }
    }
  }

  /** A second rebuild over the same matches changes nothing at all, not even which accounts have a row. */
  lemma RebuildIdempotent(p: Power, b: Book, rows: seq<MatchRow>)
    requires PowerLaw(p) && AllPlayable(rows)
    ensures Rebuilt(p, Rebuilt(p, b, rows), rows) == Rebuilt(p, b, rows)
  {
    var once := Rebuilt(p, b, rows);
    var twice := Rebuilt(p, once, rows);
    hide Replay;
    ReplayGrows(p, Cleared(b), rows);
    assert Widens(Cleared(b), Cleared(once));
    ReplayWidens(p, Cleared(b), Cleared(once), rows);
    assert twice.ratings.Keys == once.ratings.Keys;
    forall a | a in once.ratings ensures twice.ratings[a] == once.ratings[a] {
      assert Lookup(once.ratings, a) == Lookup(twice.ratings, a);
    }
    assert twice.ratings == once.ratings;
  }

  // ---------------------------------------------------------------------------------------------
  // Invariants of live runs and rebuilds
  // ---------------------------------------------------------------------------------------------

  lemma {:induction false} ReplayKeepsChain(p: Power, b: Book, rows: seq<MatchRow>)
    requires PowerLaw(p) && AllPlayable(rows) && BookInv(b)
    ensures BookInv(Replay(p, b, rows))
  {
    if rows != [] {
      var n := |rows| - 1;
      ReplayKeepsChain(p, b, rows[..n]);
      if Ranked(rows[n]) {
        SettledKeepsChain(p, Replay(p, b, rows[..n]), rows[n].matchId, ResultsOf(rows[n].players));
      }
    }
  }

  /** In a rebuilt batch every account's rows chain from the initial rating to the record it ends with. */
  lemma RebuildChains(p: Power, b: Book, rows: seq<MatchRow>)
    requires PowerLaw(p) && AllPlayable(rows)
    ensures BookInv(Rebuilt(p, b, rows))
  {
    ReplayKeepsChain(p, Cleared(b), rows);
  }

  // ---------------------------------------------------------------------------------------------
  // Rounding of one row
  // ---------------------------------------------------------------------------------------------

  predicate RoundedRow(c: RatingChange) {
    -1 <= c.after - (c.before + c.delta) <= 1
  }

  /** A row starts from the stored rating, and misses before plus delta by a quantum exactly on a tie across zero. */
  lemma ChangeRounding(p: Power, matchId: int, result: Settlement, ratings: map<AccountId, RatingRecord>,
                       field: seq<Participant>)
    requires PowerLaw(p) && |field| >= 2
    ensures var c := Change(p, matchId, result, ratings, field);
            var delta := Delta(p, K_FACTOR, Entrant(ratings, result), field);
            && c.before == Lookup(ratings, result.accountId).rating
            && RoundedRow(c)
            && (c.after == c.before + c.delta <==>
                  !Tie(delta * SCALE) || (delta < 0.0 <==> Points(c.before) + delta < 0.0))
  {
    var stored := Lookup(ratings, result.accountId).rating;
    var delta := Delta(p, K_FACTOR, Entrant(ratings, result), field);
    hide Delta, Quantize;
    QuantizeExact(stored);
    StoredChange(stored, delta);
  }

  /** At a power function with SamplePower(0.048) = 1.048, player 1 loses to a slightly stronger player 2. */
  lemma SampleLoss(field: seq<Participant>)
    requires field == [Participant(1, 1000.0, 2), Participant(2, 1019.2, 1)] && PowerLaw(SamplePower)
    ensures Delta(SamplePower, K_FACTOR, field[0], field) == -19.53125
  {
    var me, other := field[0], field[1];
    assert SamplePower((other.rating - me.rating) / 400.0) == 1.048;
    assert ExpectedScore(SamplePower, me.rating, other.rating) == 0.48828125;
    assert field[..1] == [me] && [me][..0] == [];
    assert Score(SamplePower, me, [me]) == Score(SamplePower, me, []) + Term(SamplePower, me, me) == 0.0;
    assert Score(SamplePower, me, field) == Term(SamplePower, me, other) == -0.48828125;
    assert Factor(K_FACTOR, 2) == 40.0;
  }

  /** A row whose rating is one quantum above what its own before and change add up to. */
  lemma TieRow(matchId: int)
    ensures PowerLaw(SamplePower)
    ensures var ratings := map[1 := RatingRecord(10000000, 10000000, 0), 2 := RatingRecord(10192000, 10192000, 1)];
            Changes(SamplePower, ratings, matchId, [Settlement(1, 2), Settlement(2, 1)])[0] ==
            RatingChange(matchId, 1, 10000000, -195313, 9804688, 2)
  {
    SamplePowerIsLawful();
    var ratings := map[1 := RatingRecord(10000000, 10000000, 0), 2 := RatingRecord(10192000, 10192000, 1)];
    var results := [Settlement(1, 2), Settlement(2, 1)];
    var field := Field(ratings, results);
    assert Points(10000000) == 1000.0 && Points(10192000) == 1019.2;
    assert field == [Participant(1, 1000.0, 2), Participant(2, 1019.2, 1)];
    hide Delta, SamplePower, Field;
    SampleLoss(field);
    assert Quantize(1000.0) == 10000000 && Quantize(-19.53125) == -195313 && Quantize(1000.0 + -19.53125) == 9804688;
  }

  predicate AllRounded(cs: seq<RatingChange>) {
    forall i :: 0 <= i < |cs| ==> RoundedRow(cs[i])
  }

  lemma MatchRounds(p: Power, ratings: map<AccountId, RatingRecord>, matchId: int, results: seq<Settlement>)
    requires PowerLaw(p) && |results| >= 2
    ensures AllRounded(Changes(p, ratings, matchId, results))
  {
    var cs := Changes(p, ratings, matchId, results);
    forall i | 0 <= i < |cs| ensures RoundedRow(cs[i]) {
      hide Change, RoundedRow, Field;
      ChangeRounding(p, matchId, results[i], ratings, Field(ratings, results));
    }
  }

  lemma {:induction false} ReplayRounds(p: Power, b: Book, rows: seq<MatchRow>)
    requires PowerLaw(p) && AllPlayable(rows) && AllRounded(b.changes)
    ensures AllRounded(Replay(p, b, rows).changes)
  {
    hide RoundedRow, Changes;
    if rows != [] {
      var n := |rows| - 1;
      ReplayRounds(p, b, rows[..n]);
      if Ranked(rows[n]) {
        MatchRounds(p, Replay(p, b, rows[..n]).ratings, rows[n].matchId, ResultsOf(rows[n].players));
      }
    }
  }

  // ---------------------------------------------------------------------------------------------
  // Rounding drift
  // ---------------------------------------------------------------------------------------------

  /** How far the rows moved the ratings altogether. */
  function Drift(cs: seq<RatingChange>): int {
    if cs == [] then 0 else Drift(cs[..|cs| - 1]) + cs[|cs| - 1].after - cs[|cs| - 1].before
  }

  lemma {:induction false} DriftAppend(xs: seq<RatingChange>, ys: seq<RatingChange>)
    ensures Drift(xs + ys) == Drift(xs) + Drift(ys)
  {
    if ys == [] {
      assert xs + ys == xs;
    } else {
      DriftAppend(xs, ys[..|ys| - 1]);
      assert (xs + ys)[..|xs + ys| - 1] == xs + ys[..|ys| - 1];
    }
  }

  lemma {:induction false} DriftTracksDeltas(p: Power, matchId: int, results: seq<Settlement>,
                                             ratings: map<AccountId, RatingRecord>, field: seq<Participant>)
    requires PowerLaw(p) && |field| >= 2
    ensures var gap := Drift(ChangesUpTo(p, matchId, results, ratings, field)) as real
                       - TotalDelta(p, K_FACTOR, Field(ratings, results), field) * SCALE;
            -(|results| as real) <= 2.0 * gap <= |results| as real
  {
    if results != [] {
      var n := |results| - 1;
      DriftTracksDeltas(p, matchId, results[..n], ratings, field);
      var me := Entrant(ratings, results[n]);
      var stored := Lookup(ratings, results[n].accountId).rating;
      var delta := Delta(p, K_FACTOR, me, field);
      hide Delta, Quantize, RoundHalfUp;
      QuantizeExact(stored);
      StoredDrift(stored, delta);
      assert Field(ratings, results)[..n] == Field(ratings, results[..n]);
      var cs := ChangesUpTo(p, matchId, results, ratings, field);
      assert cs[..n] == ChangesUpTo(p, matchId, results[..n], ratings, field);
      assert cs[n] == Change(p, matchId, results[n], ratings, field);
    }
  }

  /** One match creates or destroys at most half a quantum per player. */
  lemma MatchDrift(p: Power, ratings: map<AccountId, RatingRecord>, matchId: int, results: seq<Settlement>)
    requires PowerLaw(p) && |results| >= 2
    ensures -|results| <= 2 * Drift(Changes(p, ratings, matchId, results)) <= |results|
  {
    var field := Field(ratings, results);
    DriftTracksDeltas(p, matchId, results, ratings, field);
    DeltasSumToZero(p, K_FACTOR, field);
  }

  lemma {:induction false} ReplayDrift(p: Power, b: Book, rows: seq<MatchRow>)
    requires PowerLaw(p) && AllPlayable(rows) && b.changes == []
    ensures var cs := Replay(p, b, rows).changes; -|cs| <= 2 * Drift(cs) <= |cs|
  {
    if rows != [] {
      var n := |rows| - 1;
      ReplayDrift(p, b, rows[..n]);
      if Ranked(rows[n]) {
        var prior, results := Replay(p, b, rows[..n]), ResultsOf(rows[n].players);
        MatchDrift(p, prior.ratings, rows[n].matchId, results);
        DriftAppend(prior.changes, Changes(p, prior.ratings, rows[n].matchId, results));
      }
    }
  }

  /** By how much the listed accounts together stand above the initial rating. */
  function Surplus(b: Book, accounts: seq<AccountId>): int {
    if accounts == [] then 0
    else Surplus(b, accounts[..|accounts| - 1]) + Lookup(b.ratings, accounts[|accounts| - 1]).rating - INITIAL
  }

  lemma {:induction false} ChainTelescopes(history: seq<RatingChange>)
    requires Chained(history)
    ensures LastAfter(history) - INITIAL == Drift(history)
  {
    if history != [] {
      var n := |history| - 1;
      assert forall i :: 0 <= i < n ==> history[..n][i] == history[i] && history[..n][..i] == history[..i];
      ChainTelescopes(history[..n]);
    }
  }

  function SplitDrift(changes: seq<RatingChange>, accounts: seq<AccountId>): int {
    if accounts == [] then 0
    else SplitDrift(changes, accounts[..|accounts| - 1]) + Drift(History(changes, accounts[|accounts| - 1]))
  }

  lemma HistoryDriftOne(changes: seq<RatingChange>, a: AccountId)
    requires changes != []
    ensures var c := changes[|changes| - 1];
            Drift(History(changes, a)) == Drift(History(changes[..|changes| - 1], a))
            + if c.accountId == a then c.after - c.before else 0
  {
    var c, h := changes[|changes| - 1], History(changes[..|changes| - 1], a);
    assert h + [] == h;
    assert (h + [c])[..|h|] == h;
  }

  lemma {:induction false} SplitOne(changes: seq<RatingChange>, accounts: seq<AccountId>)
    requires changes != [] && forall i, j :: 0 <= i < j < |accounts| ==> accounts[i] != accounts[j]
    ensures var c := changes[|changes| - 1];
            SplitDrift(changes, accounts) == SplitDrift(changes[..|changes| - 1], accounts)
            + if c.accountId in accounts then c.after - c.before else 0
  {
    hide History, Drift;
    if accounts != [] {
      var n := |accounts| - 1;
      SplitOne(changes, accounts[..n]);
      HistoryDriftOne(changes, accounts[n]);
      assert accounts == accounts[..n] + [accounts[n]];
    }
  }

  lemma {:induction false} SplitNothing(accounts: seq<AccountId>)
    ensures SplitDrift([], accounts) == 0
  {
    if accounts != [] {
      SplitNothing(accounts[..|accounts| - 1]);
    }
  }

  lemma {:induction false} SplitAll(changes: seq<RatingChange>, accounts: seq<AccountId>)
    requires forall i, j :: 0 <= i < j < |accounts| ==> accounts[i] != accounts[j]
    requires forall i :: 0 <= i < |changes| ==> changes[i].accountId in accounts
    ensures SplitDrift(changes, accounts) == Drift(changes)
  {
    if changes == [] {
      SplitNothing(accounts);
    } else {
      SplitOne(changes, accounts);
      SplitAll(changes[..|changes| - 1], accounts);
    }
  }

  lemma {:induction false} SurplusIsSplit(b: Book, accounts: seq<AccountId>)
    requires BookInv(b)
    ensures Surplus(b, accounts) == SplitDrift(b.changes, accounts)
  {
    if accounts != [] {
      var n := |accounts| - 1;
      SurplusIsSplit(b, accounts[..n]);
      assert Consistent(ViewOf(b, accounts[n]));
      ChainTelescopes(History(b.changes, accounts[n]));
    }
  }

  /**
   * The pool of points only leaks through rounding: over all accounts that ever played, the ratings
   * add up to the initial ones give or take half a quantum for every change row of the batch.
   */
  lemma PoolDrift(p: Power, start: Book, rows: seq<MatchRow>, accounts: seq<AccountId>)
    requires PowerLaw(p) && AllPlayable(rows) && Fresh(start) && start.changes == []
    requires forall i, j :: 0 <= i < j < |accounts| ==> accounts[i] != accounts[j]
    requires var cs := Replay(p, start, rows).changes; forall i :: 0 <= i < |cs| ==> cs[i].accountId in accounts
    ensures var b := Replay(p, start, rows); -|b.changes| <= 2 * Surplus(b, accounts) <= |b.changes|
  {
    var b := Replay(p, start, rows);
    assert BookInv(start) by {
      forall a ensures Consistent(ViewOf(start, a)) {
        assert ViewOf(start, a) == View(NEW_RECORD, []);
      }
    }
    ReplayKeepsChain(p, start, rows);
    ReplayDrift(p, start, rows);
    SplitAll(b.changes, accounts);
    SurplusIsSplit(b, accounts);
  }
}
