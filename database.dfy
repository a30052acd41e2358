/**
 * src/lib/databaseService.ts over an abstract `detection_results` table.
 * The remote client is replaced by a sequence of rows; whether a call
 * reports an error is a parameter, since only the database knows.
 */
module Database {
  import opened Types
  import opened Tally

  /** A row of `detection_results` (`DbDetectionResult`). */
  datatype DbRow = DbRow(
    id: string,
    userId: Option<string>,
    filename: string,
    verdict: Verdict,
    confidence: real,
    detectionTime: real,
    features: Features,
    timestamp: int,
    metadata: Metadata)

  /** The value of an awaited call: its data, or the error it throws. */
  datatype DbResponse<T> = Ok(value: T) | Thrown(message: string)

  /** The model's stand-in for the client's message when `.single()` does not see exactly one row. */
  const NotSingleRow: string := "not exactly one row"

  /** The row `saveResultToDatabase` inserts; a missing `metadata` becomes `{}`. */
  function ToRow(r: DetectionResult, userId: Option<string>): DbRow {
    DbRow(r.id, userId, r.filename, r.verdict, r.confidence, r.detectionTime, r.features, r.timestamp,
          if r.metadata.Some? then r.metadata.value else Empty)
  }

  /** The result a row describes, given the two scores the row does not keep. */
  function FromRow(row: DbRow, realScore: real, fakeScore: real): DetectionResult {
    DetectionResult(row.id, row.filename, row.timestamp, realScore, fakeScore, row.confidence,
                    row.verdict, row.features, row.detectionTime, Some(row.metadata))
  }

  /**
   * A row loses only the two scores and the difference between a missing
   * metadata record and an empty one: a result with metadata comes back
   * from its row together with its scores, and every row is the row of
   * the result it describes.
   */
  lemma RowRoundTrip(r: DetectionResult, userId: Option<string>, row: DbRow, realScore: real, fakeScore: real)
    ensures r.metadata.Some? ==> FromRow(ToRow(r, userId), r.realScore, r.fakeScore) == r
    ensures r.metadata.None? ==> ToRow(r, userId).metadata == Empty
    ensures ToRow(FromRow(row, realScore, fakeScore), row.userId) == row
  {
  }

  /** Results that differ only in their scores are stored as the same row. */
  lemma RowIgnoresScores(r: DetectionResult, userId: Option<string>, realScore: real, fakeScore: real)
    ensures ToRow(r.(realScore := realScore, fakeScore := fakeScore), userId) == ToRow(r, userId)
  {
  }

  /** The `if (userId)` filter: only a non-empty id narrows the query. */
  predicate Narrows(userId: Option<string>) {
    userId.Some? && userId.value != ""
  }

  /** `.eq(column, value)` on a select: the rows that pass the test, in table order. */
  function Where(rows: seq<DbRow>, keep: DbRow -> bool): (out: seq<DbRow>)
    ensures forall x :: x in out <==> x in rows && keep(x)
    ensures forall x :: multiset(out)[x] == if keep(x) then multiset(rows)[x] else 0
    ensures |out| <= |rows|
  {
    if rows == [] then []
    else
      assert rows == [rows[0]] + rows[1..];
      (if keep(rows[0]) then [rows[0]] else []) + Where(rows[1..], keep)
  }

  /** `.eq('user_id', userId)`. */
  function RowsOf(rows: seq<DbRow>, userId: Option<string>): seq<DbRow> {
    Where(rows, (row: DbRow) => row.userId == userId)
  }

  /** `.eq('id', id)`. */
  function RowsWithId(rows: seq<DbRow>, id: string): seq<DbRow> {
    Where(rows, (row: DbRow) => row.id == id)
  }

  function InsertDesc(x: DbRow, sorted: seq<DbRow>): seq<DbRow> {
    if sorted == [] || x.timestamp >= sorted[0].timestamp then [x] + sorted
    else [sorted[0]] + InsertDesc(x, sorted[1..])
  }

  /** `order('timestamp', { ascending: false })`, as a stable insertion sort. */
  function SortDesc(rows: seq<DbRow>): seq<DbRow> {
    if rows == [] then [] else InsertDesc(rows[0], SortDesc(rows[1..]))
  }

  predicate SortedDesc(rows: seq<DbRow>) {
    forall i, j :: 0 <= i < j < |rows| ==> rows[i].timestamp >= rows[j].timestamp
  }

  /** The rows `getResultsFromDatabase(userId)` returns. */
  function Query(rows: seq<DbRow>, userId: Option<string>): seq<DbRow> {
    SortDesc(if Narrows(userId) then RowsOf(rows, userId) else rows)
  }

  /** No row of `rows` is newer than `t`. */
  predicate AtMost(rows: seq<DbRow>, t: int) {
    forall i :: 0 <= i < |rows| ==> rows[i].timestamp <= t
  }

  lemma SortedTail(rows: seq<DbRow>)
    requires rows != [] && SortedDesc(rows)
    ensures SortedDesc(rows[1..]) && AtMost(rows[1..], rows[0].timestamp)
  {
    assert forall i :: 0 <= i < |rows[1..]| ==> rows[1..][i] == rows[i + 1];
  }

  lemma SortedCons(h: DbRow, rest: seq<DbRow>)
    requires SortedDesc(rest) && AtMost(rest, h.timestamp)
    ensures SortedDesc([h] + rest)
  {
    forall i, j | 0 <= i < j < |[h] + rest| ensures ([h] + rest)[i].timestamp >= ([h] + rest)[j].timestamp {
      assert ([h] + rest)[j] == rest[j - 1];
      if i > 0 {
        assert ([h] + rest)[i] == rest[i - 1];
      }
    }
  }

  /** Inserting a row no newer than `t` into rows no newer than `t` gives rows no newer than `t`. */
  lemma {:induction false} InsertDescAtMost(x: DbRow, sorted: seq<DbRow>, t: int)
    requires AtMost(sorted, t) && x.timestamp <= t
    ensures AtMost(InsertDesc(x, sorted), t)
  {
    if sorted != [] && x.timestamp < sorted[0].timestamp {
      assert forall i :: 0 <= i < |sorted[1..]| ==> sorted[1..][i] == sorted[i + 1];
      InsertDescAtMost(x, sorted[1..], t);
      var r := InsertDesc(x, sorted);
      assert r == [sorted[0]] + InsertDesc(x, sorted[1..]);
      forall i | 0 <= i < |r| ensures r[i].timestamp <= t {
        if i > 0 {
          assert r[i] == InsertDesc(x, sorted[1..])[i - 1];
        }
      }
    } else {
      forall i | 0 <= i < |[x] + sorted| ensures ([x] + sorted)[i].timestamp <= t {
        if i > 0 {
          assert ([x] + sorted)[i] == sorted[i - 1];
        }
      }
    }
  }

  /** Inserting into a timestamp-descending list keeps it descending and keeps every row. */
  lemma {:induction false} InsertDescProperties(x: DbRow, sorted: seq<DbRow>)
    requires SortedDesc(sorted)
    ensures SortedDesc(InsertDesc(x, sorted))
    ensures multiset(InsertDesc(x, sorted)) == multiset([x] + sorted)
  {
    if sorted == [] {
    } else if x.timestamp >= sorted[0].timestamp {
      SortedTail(sorted);
      assert AtMost(sorted, x.timestamp);
      SortedCons(x, sorted);
    } else {
      var h, tail := sorted[0], sorted[1..];
      SortedTail(sorted);
      InsertDescProperties(x, tail);
      InsertDescAtMost(x, tail, h.timestamp);
      SortedCons(h, InsertDesc(x, tail));
      assert sorted == [h] + tail;
    }
  }

  lemma {:induction false} SortDescProperties(rows: seq<DbRow>)
    ensures SortedDesc(SortDesc(rows))
    ensures multiset(SortDesc(rows)) == multiset(rows)
  {
    if rows != [] {
      SortDescProperties(rows[1..]);
      InsertDescProperties(rows[0], SortDesc(rows[1..]));
      assert rows == [rows[0]] + rows[1..];
    }
  }

  /**
   * With a null or empty user id every row is returned, otherwise exactly
   * the rows of that user, each as often as it is stored; either way the
   * newest come first.
   */
  lemma QueryProperties(rows: seq<DbRow>, userId: Option<string>)
    ensures SortedDesc(Query(rows, userId))
    ensures !Narrows(userId) ==> multiset(Query(rows, userId)) == multiset(rows)
    ensures Narrows(userId) ==> multiset(Query(rows, userId)) == multiset(RowsOf(rows, userId))
    ensures forall x :: x in Query(rows, userId) <==> x in rows && (Narrows(userId) ==> x.userId == userId)
  {
    var filtered := if Narrows(userId) then RowsOf(rows, userId) else rows;
    SortDescProperties(filtered);
    forall x ensures x in Query(rows, userId) <==> x in filtered {
      assert x in Query(rows, userId) <==> x in multiset(Query(rows, userId));
      assert x in filtered <==> x in multiset(filtered);
    }
  }

  /** The rows left after `delete().eq('user_id', userId)`. */
  function WithoutUser(rows: seq<DbRow>, userId: string): (out: seq<DbRow>)
    ensures forall x :: x in out <==> x in rows && x.userId != Some(userId)
    ensures |out| <= |rows|
  {
    if rows == [] then []
    else (if rows[0].userId == Some(userId) then [] else [rows[0]]) + WithoutUser(rows[1..], userId)
  }

  /**
   * Clearing a user's rows splits the table in two: what remains and that
   * user's rows, which together are the table. A table without such rows is
   * left as it was, order included.
   */
  lemma WithoutUserKeepsOthers(rows: seq<DbRow>, userId: string)
    ensures (forall i :: 0 <= i < |rows| ==> rows[i].userId != Some(userId)) ==> WithoutUser(rows, userId) == rows
    ensures |WithoutUser(rows, userId)| + |RowsOf(rows, Some(userId))| == |rows|
    ensures multiset(WithoutUser(rows, userId)) + multiset(RowsOf(rows, Some(userId))) == multiset(rows)
  {
    WithoutUserSplits(rows, userId);
    assert |multiset(WithoutUser(rows, userId)) + multiset(RowsOf(rows, Some(userId)))| == |multiset(rows)|;
    if forall i :: 0 <= i < |rows| ==> rows[i].userId != Some(userId) {
      WithoutOthersUnchanged(rows, userId);
    }
  }

  lemma {:induction false} WithoutOthersUnchanged(rows: seq<DbRow>, userId: string)
    requires forall i :: 0 <= i < |rows| ==> rows[i].userId != Some(userId)
    ensures WithoutUser(rows, userId) == rows
  {
    if rows != [] {
      var h, tail := rows[0], rows[1..];
      assert forall i :: 0 <= i < |tail| ==> tail[i] == rows[i + 1];
      WithoutOthersUnchanged(tail, userId);
      assert rows == [h] + tail;
    }
  }

  lemma {:induction false} WithoutUserSplits(rows: seq<DbRow>, userId: string)
    ensures multiset(WithoutUser(rows, userId)) + multiset(RowsOf(rows, Some(userId))) == multiset(rows)
  {
    if rows != [] {
      var h, tail := rows[0], rows[1..];
      WithoutUserSplits(tail, userId);
      assert rows == [h] + tail;
      if h.userId == Some(userId) {
        assert WithoutUser(rows, userId) == WithoutUser(tail, userId);
        assert RowsOf(rows, Some(userId)) == [h] + RowsOf(tail, Some(userId));
      } else {
        assert WithoutUser(rows, userId) == [h] + WithoutUser(tail, userId);
        assert RowsOf(rows, Some(userId)) == RowsOf(tail, Some(userId));
      }
    }
  }

  function RowVerdict(row: DbRow): Verdict { row.verdict }

  function RowConfidence(row: DbRow): real { row.confidence }

  lemma {:induction false} InsertDescTally(x: DbRow, s: seq<DbRow>, v: Verdict)
    ensures CountVerdict(InsertDesc(x, s), RowVerdict, v) == CountVerdict([x] + s, RowVerdict, v)
    ensures SumOf(InsertDesc(x, s), RowConfidence) == SumOf([x] + s, RowConfidence)
  {
    if s != [] && x.timestamp < s[0].timestamp {
      InsertDescTally(x, s[1..], v);
      assert ([s[0]] + InsertDesc(x, s[1..]))[1..] == InsertDesc(x, s[1..]);
      assert ([x] + s[1..])[1..] == s[1..];
      assert ([x] + s)[1..] == s;
    }
  }

  /** Sorting changes neither the counts nor the confidence sum. */
  lemma {:induction false} SortDescTally(s: seq<DbRow>, v: Verdict)
    ensures CountVerdict(SortDesc(s), RowVerdict, v) == CountVerdict(s, RowVerdict, v)
    ensures SumOf(SortDesc(s), RowConfidence) == SumOf(s, RowConfidence)
  {
    if s != [] {
      SortDescTally(s[1..], v);
      InsertDescTally(s[0], SortDesc(s[1..]), v);
      assert ([s[0]] + SortDesc(s[1..]))[1..] == SortDesc(s[1..]);
    }
  }

  /** `getResultStatsFromDatabase` over the rows a query returns. */
  function RowStats(rows: seq<DbRow>): Stats {
    StatsOf(rows, RowVerdict, RowConfidence)
  }

  /**
   * The statistics of a query do not depend on its ordering: they are the
   * statistics of the matching rows, with counts that add up to the total
   * and an average of 0 when nothing matches.
   */
  lemma QueryStats(rows: seq<DbRow>, userId: Option<string>)
    ensures var filtered := if Narrows(userId) then RowsOf(rows, userId) else rows;
      RowStats(Query(rows, userId)) == RowStats(filtered)
    ensures var st := RowStats(Query(rows, userId));
      st.realDetected + st.fakeDetected + st.uncertain == st.totalAnalyzed
      && (st.totalAnalyzed == 0 ==> st.averageConfidence == 0.0)
  {
    var filtered := if Narrows(userId) then RowsOf(rows, userId) else rows;
    SortDescTally(filtered, Real);
    SortDescTally(filtered, Fake);
    SortDescTally(filtered, Uncertain);
    SortDescProperties(filtered);
    assert |Query(rows, userId)| == |filtered| by {
      assert |multiset(Query(rows, userId))| == |multiset(filtered)|;
    }
    CountsPartition(Query(rows, userId), RowVerdict);
  }

  /** The `detection_results` table. */
  class Table {
    var rows: seq<DbRow>

    constructor (rows: seq<DbRow>)
      ensures this.rows == rows
    {
      this.rows := rows;
    }

    /**
     * `saveResultToDatabase`: insert the row and return its id, or throw the
     * error the insert reports (`insertError`), leaving the table unchanged.
     */
    method SaveResultToDatabase(r: DetectionResult, userId: Option<string>, insertError: Option<string>)
      returns (res: DbResponse<string>)
      modifies this
      ensures insertError.Some? ==> res == Thrown(insertError.value) && rows == old(rows)
      ensures insertError.None? ==> res == Ok(r.id) && rows == old(rows) + [ToRow(r, userId)]
    {
      if insertError.Some? {
        return Thrown(insertError.value);
      }
      var row := ToRow(r, userId);
      rows := rows + [row];
      res := Ok(row.id);
    }

    /** `getResultsFromDatabase`. */
    method GetResultsFromDatabase(userId: Option<string>, queryError: Option<string>)
      returns (res: DbResponse<seq<DbRow>>)
      ensures queryError.Some? ==> res == Thrown(queryError.value)
      ensures queryError.None? ==> res == Ok(Query(rows, userId))
    {
      var selected := rows;
      if Narrows(userId) {
        selected := RowsOf(selected, userId);
      }
      if queryError.Some? {
        return Thrown(queryError.value);
      }
      res := Ok(SortDesc(selected));
    }

    /**
     * `getResultById`: `.single()` succeeds only when exactly one row has
     * the id; otherwise it throws, as it does for a reported error.
     */
    method GetResultById(id: string, queryError: Option<string>) returns (res: DbResponse<DbRow>)
      ensures res.Ok? ==> queryError.None? && res.value in rows && res.value.id == id
      ensures res.Ok? <==> queryError.None? && |RowsWithId(rows, id)| == 1
    {
      var matching := RowsWithId(rows, id);
      if queryError.Some? {
        return Thrown(queryError.value);
      }
      if |matching| != 1 {
        return Thrown(NotSingleRow);
      }
      assert matching[0] in matching;
      res := Ok(matching[0]);
    }

    /** `clearResultsForUser`: remove exactly that user's rows and return true. */
    method ClearResultsForUser(userId: string, deleteError: Option<string>) returns (res: DbResponse<bool>)
      modifies this
      ensures deleteError.Some? ==> res == Thrown(deleteError.value) && rows == old(rows)
      ensures deleteError.None? ==> res == Ok(true) && rows == WithoutUser(old(rows), userId)
    {
      if deleteError.Some? {
        return Thrown(deleteError.value);
      }
      rows := WithoutUser(rows, userId);
      res := Ok(true);
    }

    /** `getResultStatsFromDatabase`: the statistics of the query's rows. */
    method GetResultStatsFromDatabase(userId: Option<string>, queryError: Option<string>)
      returns (res: DbResponse<Stats>)
      ensures queryError.Some? ==> res == Thrown(queryError.value)
      ensures queryError.None? ==> res == Ok(RowStats(Query(rows, userId)))
    {
      var results := GetResultsFromDatabase(userId, queryError);
      if results.Thrown? {
        return Thrown(results.message);
      }
      res := Ok(RowStats(results.value));
    }
  }
}
