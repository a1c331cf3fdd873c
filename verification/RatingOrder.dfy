/** The order matches were settled in can be read back from the histories of those who played them. */
module RatingOrder {
  import opened Elo
  import opened Prelude
  import opened RatingLedger
  import opened RatingReplay

  /** A batch nobody has played in yet. */
  ghost predicate Fresh(b: Book) {
    forall a :: ViewOf(b, a) == View(NEW_RECORD, [])
  }

  predicate AllRanked(rows: seq<MatchRow>) {
    forall i :: 0 <= i < |rows| ==> Ranked(rows[i])
  }

  /** The ids of the matches an account was settled in, in order. */
  function Trace(rows: seq<MatchRow>, a: AccountId): seq<int> {
    if rows == [] then []
    else
      var last := rows[|rows| - 1];
      Trace(rows[..|rows| - 1], a) + if Ranked(last) && In(last, a) then [last.matchId] else []
  }

  function Ids(history: seq<RatingChange>): seq<int> {
    if history == [] then [] else Ids(history[..|history| - 1]) + [history[|history| - 1].matchId]
  }

  lemma IdsOne(history: seq<RatingChange>, c: RatingChange)
    ensures Ids(history + [c]) == Ids(history) + [c.matchId]
  {
    assert (history + [c])[..|history|] == history;
  }

  /** An account's history lists exactly its matches, in the order they were settled. */
  lemma {:induction false} HistoryTrace(p: Power, start: Book, rows: seq<MatchRow>, a: AccountId)
    requires PowerLaw(p) && AllPlayable(rows) && Fresh(start)
    ensures Ids(ViewOf(Replay(p, start, rows), a).history) == Trace(rows, a)
  {
    if rows == [] {
      assert ViewOf(start, a) == View(NEW_RECORD, []);
    } else {
      var n := |rows| - 1;
      hide Step, ViewOf, Fresh, In, Ranked;
      HistoryTrace(p, start, rows[..n], a);
      var before := Replay(p, start, rows[..n]);
      StepView(p, before, rows[n], a);
      var gain := Gain(p, before, rows[n], a);
      if Ranked(rows[n]) && In(rows[n], a) {
        IdsOne(ViewOf(before, a).history, gain[0]);
        assert gain == [gain[0]];
      }
    }
  }

  lemma {:induction false} TraceAt(rows: seq<MatchRow>, a: AccountId, k: nat) returns (i: nat)
    requires k < |Trace(rows, a)|
    ensures i < |rows| && rows[i].matchId == Trace(rows, a)[k]
  {
    var n := |rows| - 1;
    if k < |Trace(rows[..n], a)| {
      i := TraceAt(rows[..n], a, k);
    } else {
      i := n;
    }
  }

  lemma {:induction false} TracePair(rows: seq<MatchRow>, a: AccountId, k: nat, l: nat) returns (i: nat, j: nat)
    requires k < l < |Trace(rows, a)|
    ensures i < j < |rows| && rows[i].matchId == Trace(rows, a)[k] && rows[j].matchId == Trace(rows, a)[l]
  {
    var n := |rows| - 1;
    if l < |Trace(rows[..n], a)| {
      i, j := TracePair(rows[..n], a, k, l);
    } else {
      i := TraceAt(rows[..n], a, k);
      j := n;
    }
  }

  lemma {:induction false} Traced(rows: seq<MatchRow>, a: AccountId, i: nat) returns (k: nat)
    requires i < |rows| && Ranked(rows[i]) && In(rows[i], a)
    ensures k < |Trace(rows, a)| && Trace(rows, a)[k] == rows[i].matchId
  {
    var n := |rows| - 1;
    if i < n {
      k := Traced(rows[..n], a, i);
    } else {
      k := |Trace(rows[..n], a)|;
    }
  }

  lemma {:induction false} PairTraced(rows: seq<MatchRow>, a: AccountId, i: nat, j: nat) returns (k: nat, l: nat)
    requires i < j < |rows| && Ranked(rows[i]) && In(rows[i], a) && Ranked(rows[j]) && In(rows[j], a)
    ensures k < l < |Trace(rows, a)| && Trace(rows, a)[k] == rows[i].matchId && Trace(rows, a)[l] == rows[j].matchId
  {
    var n := |rows| - 1;
    if j < n {
      k, l := PairTraced(rows[..n], a, i, j);
    } else {
      k := Traced(rows[..n], a, i);
      l := |Trace(rows[..n], a)|;
    }
  }

  /** Match ids identify rows across the two lists. */
  predicate SameIdSameRow(done: seq<MatchRow>, rows: seq<MatchRow>) {
    forall i, j :: 0 <= i < |done| && 0 <= j < |rows| && done[i].matchId == rows[j].matchId ==> done[i] == rows[j]
  }

  lemma SomePlayer(m: MatchRow)
    requires Playable(m) && Ranked(m)
    ensures m.players != [] && In(m, m.players[0].accountId)
  {
    assert |ResultsOf(m.players)| >= 2;
  }

  /**
   * If settling in one order and replaying in start order cannot be told apart by any account, then every
   * settled match was replayed, and matches with a common player were settled in start order.
   */
  lemma SameBookSameOrder(p: Power, start: Book, done: seq<MatchRow>, rows: seq<MatchRow>)
    requires PowerLaw(p) && AllPlayable(done) && AllPlayable(rows) && Fresh(start)
    requires AllRanked(done) && SameIdSameRow(done, rows) && Ordered(rows)
    requires SameBook(Replay(p, start, done), Replay(p, start, rows))
    ensures forall i :: 0 <= i < |done| ==> done[i] in rows
    ensures Agrees(done)
  {
    forall i | 0 <= i < |done| ensures done[i] in rows {
      SomePlayer(done[i]);
      var a := done[i].players[0].accountId;
      SameTrace(p, start, done, rows, a);
      var k := Traced(done, a, i);
      var j := TraceAt(rows, a, k);
      assert done[i] == rows[j];
    }
    forall i, j | 0 <= i < j < |done| && Share(done[i], done[j]) ensures Before(done[i], done[j]) {
      var s :| 0 <= s < |done[i].players| && In(done[j], done[i].players[s].accountId);
      var a := done[i].players[s].accountId;
      assert In(done[i], a);
      SameTrace(p, start, done, rows, a);
      var k, l := PairTraced(done, a, i, j);
      var i', j' := TracePair(rows, a, k, l);
      assert done[i] == rows[i'] && done[j] == rows[j'];
    }
  }

  lemma SameTrace(p: Power, start: Book, done: seq<MatchRow>, rows: seq<MatchRow>, a: AccountId)
    requires PowerLaw(p) && AllPlayable(done) && AllPlayable(rows) && Fresh(start)
    requires SameBook(Replay(p, start, done), Replay(p, start, rows))
    ensures Trace(done, a) == Trace(rows, a)
  {
    HistoryTrace(p, start, done, a);
    HistoryTrace(p, start, rows, a);
    hide Replay, Trace;
    assert ViewOf(Replay(p, start, done), a) == ViewOf(Replay(p, start, rows), a);
  }
}
