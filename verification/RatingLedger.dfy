/**
 * The rating ledger of one batch: the current record of every account and the change rows behind it.
 * A match is settled by one step on this value; a rebuild replays the same step over the stored matches.
 */
module RatingLedger {
  import opened Elo
  import opened Prelude
  import opened Rounding

  const INITIAL: int := 1000 * 10000
  const K_FACTOR: real := 40.0

  datatype RatingRecord = RatingRecord(rating: int, highest: int, completed: nat)

  datatype RatingChange = RatingChange(
    matchId: int, accountId: AccountId, before: int, delta: int, after: int, rank: int)

  datatype Settlement = Settlement(accountId: AccountId, rank: int)

  datatype Book = Book(ratings: map<AccountId, RatingRecord>, changes: seq<RatingChange>)

  const NEW_RECORD := RatingRecord(INITIAL, INITIAL, 0)

  /** An account without a row is treated as one that starts from the initial rating. */
  function Lookup(ratings: map<AccountId, RatingRecord>, a: AccountId): RatingRecord {
    if a in ratings then ratings[a] else NEW_RECORD
  }

  function Enroll(ratings: map<AccountId, RatingRecord>, a: AccountId): map<AccountId, RatingRecord> {
    if a in ratings then ratings else ratings[a := NEW_RECORD]
  }

  function EnrollAll(ratings: map<AccountId, RatingRecord>, results: seq<Settlement>): map<AccountId, RatingRecord> {
    if results == [] then ratings
    else Enroll(EnrollAll(ratings, results[..|results| - 1]), results[|results| - 1].accountId)
  }

  predicate ValidResults(results: seq<Settlement>) {
    && |results| >= 2
    && (forall i, j :: 0 <= i < j < |results| ==> results[i].accountId != results[j].accountId)
    && (forall i :: 0 <= i < |results| ==> results[i].rank >= 1)
  }

  function Entrant(ratings: map<AccountId, RatingRecord>, result: Settlement): Participant {
    Participant(result.accountId, Points(Lookup(ratings, result.accountId).rating), result.rank)
  }

  function Field(ratings: map<AccountId, RatingRecord>, results: seq<Settlement>): (field: seq<Participant>)
    ensures |field| == |results|
    ensures forall i :: 0 <= i < |results| ==> field[i] == Entrant(ratings, results[i])
  {
    if results == [] then []
    else Field(ratings, results[..|results| - 1]) + [Entrant(ratings, results[|results| - 1])]
  }

  /** The row one participant of the match gets. */
  function Change(p: Power, matchId: int, result: Settlement, ratings: map<AccountId, RatingRecord>,
                  field: seq<Participant>): RatingChange
    requires PowerLaw(p) && |field| >= 2
  {
    var me := Entrant(ratings, result);
    var delta := Delta(p, K_FACTOR, me, field);
    RatingChange(matchId, result.accountId, Quantize(me.rating), Quantize(delta), Quantize(me.rating + delta),
                 result.rank)
  }

  function ChangesUpTo(p: Power, matchId: int, results: seq<Settlement>, ratings: map<AccountId, RatingRecord>,
                       field: seq<Participant>): (cs: seq<RatingChange>)
    requires PowerLaw(p) && |field| >= 2
    ensures |cs| == |results|
    ensures forall i :: 0 <= i < |results| ==> cs[i] == Change(p, matchId, results[i], ratings, field)
  {
    if results == [] then []
    else ChangesUpTo(p, matchId, results[..|results| - 1], ratings, field)
         + [Change(p, matchId, results[|results| - 1], ratings, field)]
  }

  function Changes(p: Power, ratings: map<AccountId, RatingRecord>, matchId: int, results: seq<Settlement>):
    (cs: seq<RatingChange>)
    requires PowerLaw(p) && |results| >= 2
    ensures |cs| == |results|
  {
    ChangesUpTo(p, matchId, results, ratings, Field(ratings, results))
  }

  function Bumped(r: RatingRecord, c: RatingChange): RatingRecord {
    RatingRecord(c.after, Max(r.highest, c.after), r.completed + 1)
  }

  function Post(ratings: map<AccountId, RatingRecord>, cs: seq<RatingChange>): map<AccountId, RatingRecord> {
    if cs == [] then ratings
    else
      var prior := Post(ratings, cs[..|cs| - 1]);
      var c := cs[|cs| - 1];
      prior[c.accountId := Bumped(Lookup(prior, c.accountId), c)]
  }

  /** One match settled. */
  function Settled(p: Power, b: Book, matchId: int, results: seq<Settlement>): Book
    requires PowerLaw(p) && |results| >= 2
  {
    var cs := Changes(p, b.ratings, matchId, results);
    Book(Post(EnrollAll(b.ratings, results), cs), b.changes + cs)
  }

  function Initialized(b: Book, a: AccountId): Book {
    b.(ratings := Enroll(b.ratings, a))
  }

  // ---------------------------------------------------------------------------------------------
  // One account's view
  // ---------------------------------------------------------------------------------------------

  /** The change rows of one account, in the order they were written. */
  function History(changes: seq<RatingChange>, a: AccountId): seq<RatingChange> {
    if changes == [] then []
    else
      var c := changes[|changes| - 1];
      History(changes[..|changes| - 1], a) + if c.accountId == a then [c] else []
  }

  /** The record a history adds up to. */
  function Replayed(r: RatingRecord, history: seq<RatingChange>): RatingRecord {
    if history == [] then r
    else Bumped(Replayed(r, history[..|history| - 1]), history[|history| - 1])
  }

  datatype View = View(record: RatingRecord, history: seq<RatingChange>)

  function ViewOf(b: Book, a: AccountId): View {
    View(Lookup(b.ratings, a), History(b.changes, a))
  }

  function Extended(v: View, cs: seq<RatingChange>): View {
    View(Replayed(v.record, cs), v.history + cs)
  }

  /** Two books that no account can tell apart. */
  ghost predicate SameBook(b: Book, c: Book) {
    forall a :: ViewOf(b, a) == ViewOf(c, a)
  }

  lemma {:induction false} HistoryAppend(xs: seq<RatingChange>, ys: seq<RatingChange>, a: AccountId)
    ensures History(xs + ys, a) == History(xs, a) + History(ys, a)
  {
    if ys == [] {
      assert xs + ys == xs;
    } else {
      HistoryAppend(xs, ys[..|ys| - 1], a);
      assert (xs + ys)[..|xs + ys| - 1] == xs + ys[..|ys| - 1];
    }
  }

  lemma {:induction false} EnrollAllLookup(ratings: map<AccountId, RatingRecord>, results: seq<Settlement>, a: AccountId)
    ensures Lookup(EnrollAll(ratings, results), a) == Lookup(ratings, a)
    ensures a in EnrollAll(ratings, results) <==>
            a in ratings || exists i :: 0 <= i < |results| && results[i].accountId == a
  {
    if results != [] {
      var n := |results| - 1;
      EnrollAllLookup(ratings, results[..n], a);
      assert forall i :: 0 <= i < n ==> results[..n][i] == results[i];
      if results[n].accountId != a && exists i :: 0 <= i < |results| && results[i].accountId == a {
        var i :| 0 <= i < |results| && results[i].accountId == a;
        assert results[..n][i].accountId == a;
      }
    }
  }

  lemma {:induction false} PostLookup(ratings: map<AccountId, RatingRecord>, cs: seq<RatingChange>, a: AccountId)
    ensures Lookup(Post(ratings, cs), a) == Replayed(Lookup(ratings, a), History(cs, a))
  {
    if cs != [] {
      var n := |cs| - 1;
      PostLookup(ratings, cs[..n], a);
      var h := History(cs[..n], a);
      assert (h + [cs[n]])[..|h|] == h;
      assert h + [] == h;
    }
  }

  /** Settling a match extends each account's view by that account's rows of the match. */
  lemma SettledView(p: Power, b: Book, matchId: int, results: seq<Settlement>, a: AccountId)
    requires PowerLaw(p) && |results| >= 2
    ensures ViewOf(Settled(p, b, matchId, results), a) ==
            Extended(ViewOf(b, a), History(Changes(p, b.ratings, matchId, results), a))
  {
    var cs := Changes(p, b.ratings, matchId, results);
    EnrollAllLookup(b.ratings, results, a);
    PostLookup(EnrollAll(b.ratings, results), cs, a);
    HistoryAppend(b.changes, cs, a);
  }

  predicate Plays(results: seq<Settlement>, a: AccountId) {
    exists i :: 0 <= i < |results| && results[i].accountId == a
  }

  lemma {:induction false} NoRows(cs: seq<RatingChange>, a: AccountId)
    requires forall i :: 0 <= i < |cs| ==> cs[i].accountId != a
    ensures History(cs, a) == []
  {
    if cs != [] {
      NoRows(cs[..|cs| - 1], a);
    }
  }

  lemma {:induction false} OneRow(cs: seq<RatingChange>, k: nat)
    requires k < |cs| && forall i, j :: 0 <= i < j < |cs| ==> cs[i].accountId != cs[j].accountId
    ensures History(cs, cs[k].accountId) == [cs[k]]
  {
    var n := |cs| - 1;
    if k == n {
      NoRows(cs[..n], cs[k].accountId);
    } else {
      OneRow(cs[..n], k);
    }
  }

  /** A match leaves bystanders alone and gives every player exactly one row. */
  lemma RowsOfMatch(p: Power, ratings: map<AccountId, RatingRecord>, matchId: int, results: seq<Settlement>, a: AccountId)
    requires PowerLaw(p) && ValidResults(results)
    ensures !Plays(results, a) ==> History(Changes(p, ratings, matchId, results), a) == []
    ensures forall k :: 0 <= k < |results| && results[k].accountId == a ==>
              History(Changes(p, ratings, matchId, results), a)
              == [Change(p, matchId, results[k], ratings, Field(ratings, results))]
  {
    var cs := Changes(p, ratings, matchId, results);
    if !Plays(results, a) {
      NoRows(cs, a);
    }
    forall k | 0 <= k < |results| && results[k].accountId == a
      ensures History(cs, a) == [Change(p, matchId, results[k], ratings, Field(ratings, results))]
    {
      OneRow(cs, k);
    }
  }

  // ---------------------------------------------------------------------------------------------
  // The chain of an account's changes
  // ---------------------------------------------------------------------------------------------

  function LastAfter(history: seq<RatingChange>): int {
    if history == [] then INITIAL else history[|history| - 1].after
  }

  /** The first row starts from the initial rating and every other from where the previous one ended. */
  predicate Chained(history: seq<RatingChange>) {
    forall i :: 0 <= i < |history| ==> history[i].before == LastAfter(history[..i])
  }

  predicate IsPeak(history: seq<RatingChange>, peak: int) {
    && peak >= INITIAL
    && (forall i :: 0 <= i < |history| ==> history[i].after <= peak)
    && (peak == INITIAL || exists i :: 0 <= i < |history| && history[i].after == peak)
  }

  /** A record that agrees with its history. */
  predicate Consistent(v: View) {
    && Chained(v.history)
    && v.record.rating == LastAfter(v.history)
    && v.record.completed == |v.history|
    && IsPeak(v.history, v.record.highest)
  }

  ghost predicate BookInv(b: Book) {
    forall a :: Consistent(ViewOf(b, a))
  }

  lemma ChainExtends(history: seq<RatingChange>, c: RatingChange)
    requires Chained(history) && c.before == LastAfter(history)
    ensures Chained(history + [c])
  {
    var h := history + [c];
    forall i | 0 <= i < |h| ensures h[i].before == LastAfter(h[..i]) {
      if i == |history| {
        assert h[..i] == history;
      } else {
        assert h[..i] == history[..i] && h[i] == history[i];
      }
    }
  }

  lemma ExtendConsistent(v: View, c: RatingChange)
    requires Consistent(v) && c.before == v.record.rating
    ensures Consistent(Extended(v, [c]))
  {
    hide Chained, IsPeak;
    assert [c][..0] == [];
    ChainExtends(v.history, c);
    PeakExtends(v.history, v.record.highest, c);
    assert Replayed(v.record, [c]) == Bumped(v.record, c);
  }

  lemma PeakExtends(history: seq<RatingChange>, peak: int, c: RatingChange)
    requires IsPeak(history, peak)
    ensures IsPeak(history + [c], Max(peak, c.after))
  {
    var h := history + [c];
    if c.after > peak {
      assert h[|history|].after == c.after;
    } else if peak != INITIAL {
      var i :| 0 <= i < |history| && history[i].after == peak;
      assert h[i].after == peak;
    }
  }

  /** Settling keeps every account's chain whole: records, peaks and counts always match the rows. */
  lemma SettledKeepsChain(p: Power, b: Book, matchId: int, results: seq<Settlement>)
    requires PowerLaw(p) && ValidResults(results) && BookInv(b)
    ensures BookInv(Settled(p, b, matchId, results))
  {
    forall a ensures Consistent(ViewOf(Settled(p, b, matchId, results), a)) {
      SettledView(p, b, matchId, results, a);
      RowsOfMatch(p, b.ratings, matchId, results, a);
      var v := ViewOf(b, a);
      assert Consistent(v);
      if Plays(results, a) {
        var k :| 0 <= k < |results| && results[k].accountId == a;
        QuantizeExact(v.record.rating);
        ExtendConsistent(v, Change(p, matchId, results[k], b.ratings, Field(b.ratings, results)));
      } else {
        assert v.history + [] == v.history;
      }
    }
  }

  lemma InitializedView(b: Book, a: AccountId)
    ensures SameBook(Initialized(b, a), b)
  {
  }
}
