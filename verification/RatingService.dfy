/** The rating service: records and change rows updated in place, one match at a time. */
module RatingService {
  import opened Elo
  import opened Prelude
  import opened RatingLedger
  import opened RatingReplay
  import opened Rounding

  datatype LedgerError = InvalidResults

  /** The stored form of a computed change. */
  function Row(matchId: int, change: EloChange, result: Settlement): RatingChange {
    RatingChange(matchId, change.accountId, Quantize(change.before), Quantize(change.delta), Quantize(change.after),
                 result.rank)
  }

  class RatingBook {
    const power: Power
    var ratings: map<AccountId, RatingRecord>
    var changes: seq<RatingChange>

    function State(): Book
      reads this
    {
      Book(ratings, changes)
    }

    constructor (power: Power)
      ensures this.power == power && State() == Book(map[], [])
    {
      this.power := power;
      ratings := map[];
      changes := [];
    }

    method InitializeAccount(account: AccountId) returns (record: RatingRecord)
      modifies this`ratings
      ensures State() == Initialized(old(State()), account)
      ensures account in ratings && record == ratings[account] == Lookup(old(ratings), account)
    {
      if account in ratings {
        return ratings[account];
      }
      record := NEW_RECORD;
      ratings := ratings[account := record];
    }

    /** Reads the players' records, opening missing ones, before anything is posted. */
    method Gather(results: seq<Settlement>) returns (field: seq<Participant>)
      modifies this`ratings
      ensures ratings == EnrollAll(old(ratings), results)
      ensures field == Field(old(ratings), results)
    {
      field := [];
      for i := 0 to |results|
        invariant ratings == EnrollAll(old(ratings), results[..i])
        invariant field == Field(old(ratings), results[..i])
        invariant changes == old(changes)
      {
        EnrollAllLookup(old(ratings), results[..i], results[i].accountId);
        var record := InitializeAccount(results[i].accountId);
        field := field + [Participant(results[i].accountId, Points(record.rating), results[i].rank)];
        assert results[..i + 1][..i] == results[..i];
      }
      assert results[..|results|] == results;
    }

    /** Settles one match; results the calculation refuses leave the book as it was. */
    method SettleMatch(matchId: int, results: seq<Settlement>) returns (r: Result<seq<RatingChange>, LedgerError>)
      requires PowerLaw(power)
      modifies this
      ensures r.Err? <==> !ValidResults(results)
      ensures r.Err? ==> State() == old(State())
      ensures r.Ok? ==>
                && State() == Settled(power, old(State()), matchId, results)
                && r.value == Changes(power, old(ratings), matchId, results)
    {
      hide PowerLaw, ValidResults, Refusal, EnrollAll, Field, Changes, Row, Delta, Post;
      var saved := ratings;
      var field := Gather(results);
      RefusalMatches(saved, results);
      var computed := CalculateRatings(power, field, K_FACTOR);
      if computed.Err? {
        ratings := saved;
        return Err(InvalidResults);
      }
      ghost var rows := Changes(power, saved, matchId, results);
      RowsComputed(power, saved, matchId, results, computed.value);
      var written := PostAll(matchId, results, computed.value, rows);
      r := Ok(written);
    }

    /** Writes the computed changes, each as a row and into the record of its account. */
    method PostAll(matchId: int, results: seq<Settlement>, computed: seq<EloChange>, ghost rows: seq<RatingChange>)
      returns (written: seq<RatingChange>)
      requires |computed| == |results| == |rows|
      requires forall i :: 0 <= i < |rows| ==>
                 rows[i].accountId in ratings && rows[i] == Row(matchId, computed[i], results[i])
      modifies this
      ensures written == rows && changes == old(changes) + rows && ratings == Post(old(ratings), rows)
    {
      written := [];
      for i := 0 to |computed|
        invariant written == rows[..i]
        invariant changes == old(changes) + rows[..i]
        invariant ratings == Post(old(ratings), rows[..i])
      {
        var row := Row(matchId, computed[i], results[i]);
        var account := row.accountId;
        PostKeepsRows(old(ratings), rows[..i], account);
        assert rows[..i + 1] == rows[..i] + [row] && rows[..i + 1][..i] == rows[..i];
        var record := ratings[account];
        ratings := ratings[account := RatingRecord(row.after, Max(record.highest, row.after), record.completed + 1)];
        changes := changes + [row];
        written := written + [row];
      }
      assert rows[..|rows|] == rows;
    }

    /** Forgets every record and settles the given stored matches again; any failure undoes the attempt. */
    method RebuildCurrentBatch(rows: seq<MatchRow>) returns (r: Result<(), LedgerError>)
      requires PowerLaw(power)
      modifies this
      ensures r.Ok? <==> AllPlayable(rows)
      ensures r.Ok? ==> State() == Rebuilt(power, old(State()), rows)
      ensures r.Err? ==> State() == old(State())
    {
      hide PowerLaw, Settled, ValidResults, Replay, Ranked;
      var savedRatings, savedChanges := ratings, changes;
      ReplayNone(power, Cleared(State()));
      changes := [];
      ratings := map a | a in ratings :: NEW_RECORD;
      for i := 0 to |rows|
        invariant AllPlayable(rows[..i])
        invariant State() == Replay(power, Cleared(old(State())), rows[..i])
      {
        assert rows[..i + 1] == rows[..i] + [rows[i]];
        if Ranked(rows[i]) {
          var settled := SettleMatch(rows[i].matchId, ResultsOf(rows[i].players));
          if settled.Err? {
            ratings, changes := savedRatings, savedChanges;
            assert !Playable(rows[i]);
            return Err(InvalidResults);
          }
        }
        assert Playable(rows[i]);
        assert forall j :: 0 <= j < i ==> rows[..i + 1][j] == rows[..i][j];
        ReplayOne(power, Cleared(old(State())), rows[..i], rows[i]);
      }
      assert rows[..|rows|] == rows;
      r := Ok(());
    }
  }

  ghost predicate Computed(p: Power, field: seq<Participant>, computed: seq<EloChange>)
    requires PowerLaw(p) && |field| >= 2
  {
    && |computed| == |field|
    && forall i :: 0 <= i < |field| ==>
         var delta := Delta(p, K_FACTOR, field[i], field);
         computed[i] == EloChange(field[i].accountId, field[i].rating, delta, field[i].rating + delta)
  }

  lemma RowsComputed(p: Power, ratings: map<AccountId, RatingRecord>, matchId: int, results: seq<Settlement>,
                     computed: seq<EloChange>)
    requires PowerLaw(p) && |results| >= 2 && Computed(p, Field(ratings, results), computed)
    ensures var rows := Changes(p, ratings, matchId, results);
            && |rows| == |computed|
            && forall i :: 0 <= i < |rows| ==>
                 && rows[i].accountId in EnrollAll(ratings, results)
                 && rows[i] == Row(matchId, computed[i], results[i])
  {
    var rows, field := Changes(p, ratings, matchId, results), Field(ratings, results);
    hide Delta, Quantize;
    forall i | 0 <= i < |rows|
      ensures rows[i].accountId in EnrollAll(ratings, results) && rows[i] == Row(matchId, computed[i], results[i])
    {
      EnrollAllLookup(ratings, results, results[i].accountId);
      assert field[i] == Entrant(ratings, results[i]);
    }
  }

  lemma ReplayNone(p: Power, b: Book)
    requires PowerLaw(p)
    ensures Replay(p, b, []) == b
  {
  }

  /** The calculation refuses exactly the results the ledger calls invalid. */
  lemma RefusalMatches(ratings: map<AccountId, RatingRecord>, results: seq<Settlement>)
    ensures Refusal(Field(ratings, results), K_FACTOR).Some? <==> !ValidResults(results)
    ensures ValidResults(results) ==> |results| >= 2
  {
    var field := Field(ratings, results);
    assert forall i :: 0 <= i < |results| ==>
        field[i].accountId == results[i].accountId && field[i].rank == results[i].rank;
    if !ValidResults(results) && |results| >= 2 && Unique(field) {
      var i :| 0 <= i < |results| && results[i].rank < 1;
      assert field[i].rank < 1;
    }
  }

  lemma {:induction false} PostKeepsRows(ratings: map<AccountId, RatingRecord>, cs: seq<RatingChange>, a: AccountId)
    ensures a in ratings ==> a in Post(ratings, cs)
  {
    if cs != [] {
      PostKeepsRows(ratings, cs[..|cs| - 1], a);
    }
  }
}
