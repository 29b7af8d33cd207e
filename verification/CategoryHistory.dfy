/**
 The category history of one channel (app/repositories/channel_repository.py, `_record_category_change`).
 A sequence holds the rows of one `channel_id` in insertion order, so a row's position stands for its id.
 */
module CategoryHistory {
  import opened Wrappers

  /** The pair of columns the history compares. */
  datatype Category = Category(id: Option<string>, name: Option<string>)

  /** One row of `channel_category_history`: the half-open interval from `validFrom` to `validTo`. */
  datatype Interval = Interval(sourceId: string, category: Category, validFrom: int, validTo: Option<int>)

  /** One successful upsert of the channel, as the history sees it. */
  datatype Observation = Observation(sourceId: string, category: Category, at: int)

  /** The row that `ORDER BY valid_from DESC, id DESC LIMIT 1` returns. */
  function Latest(rows: seq<Interval>): (latest: Option<nat>)
    ensures latest.None? <==> rows == []
    ensures latest.Some? ==> latest.value < |rows|
    ensures latest.Some? ==>
              forall j :: 0 <= j < |rows| ==>
                            || rows[j].validFrom < rows[latest.value].validFrom
                            || (rows[j].validFrom == rows[latest.value].validFrom && j <= latest.value)
  {
    if rows == [] then None
    else
      var last := |rows| - 1;
      match Latest(rows[..last])
      case None => Some(last)
      case Some(i) => if rows[i].validFrom <= rows[last].validFrom then Some(last) else Some(i)
  }

  /** What one call of `_record_category_change` does to the channel's rows. */
  function Record(rows: seq<Interval>, o: Observation): seq<Interval> {
    match Latest(rows)
    case None => [Interval(o.sourceId, o.category, o.at, None)]
    case Some(i) =>
      if rows[i].category == o.category then
        rows[i := rows[i].(validTo := None)]
      else
        var closed := if rows[i].validTo.None? then rows[i := rows[i].(validTo := Some(o.at))] else rows;
        closed + [Interval(o.sourceId, o.category, o.at, None)]
  }

  /** The rows left by a whole run of upserts of one channel. */
  function HistoryOf(log: seq<Observation>): seq<Interval> {
    if log == [] then [] else Record(HistoryOf(log[..|log| - 1]), log[|log| - 1])
  }

  /** Upsert instants never go back. */
  ghost predicate Nondecreasing(log: seq<Observation>) {
    forall i, j :: 0 <= i <= j < |log| ==> log[i].at <= log[j].at
  }

  // ----- What the rows mean -----

  /** Instant `t` lies in the half-open interval. */
  predicate Covers(row: Interval, t: int) {
    row.validFrom <= t && (row.validTo.Some? ==> t < row.validTo.value)
  }

  /** The category of the last upsert made at or before `t`, read from the log alone. */
  function CategoryAt(log: seq<Observation>, t: int): Option<Category> {
    if log == [] then None
    else if log[|log| - 1].at <= t then Some(log[|log| - 1].category)
    else CategoryAt(log[..|log| - 1], t)
  }

  /** Intervals follow one another without gap or overlap, neighbours differ, and only the last one is open. */
  ghost predicate Tiles(rows: seq<Interval>) {
    && (forall i :: 0 <= i < |rows| - 1 ==>
                      && rows[i].validTo == Some(rows[i + 1].validFrom)
                      && rows[i].validFrom <= rows[i + 1].validFrom
                      && rows[i].category != rows[i + 1].category)
    && (rows != [] ==> rows[|rows| - 1].validTo.None?)
  }

  /** The rows are an index of the log: they tile time from the first upsert on and answer every instant. */
  ghost predicate Indexes(rows: seq<Interval>, log: seq<Observation>) {
    && Tiles(rows)
    && (rows == [] <==> log == [])
    && (log != [] ==>
          && rows[0].validFrom == log[0].at
          && rows[|rows| - 1].validFrom <= log[|log| - 1].at
          && rows[|rows| - 1].category == log[|log| - 1].category)
    && (forall i, t :: 0 <= i < |rows| && Covers(rows[i], t) ==> CategoryAt(log, t) == Some(rows[i].category))
  }

  /** In tiling rows the instants of opening never go back. */
  lemma {:induction false} TilesAscend(rows: seq<Interval>, i: nat, j: nat)
    requires Tiles(rows) && i <= j < |rows|
    ensures rows[i].validFrom <= rows[j].validFrom
    ensures i < j ==> rows[i].validTo.Some? && rows[i].validTo.value <= rows[j].validFrom
    decreases j - i
  {
    if i < j {
      TilesAscend(rows, i + 1, j);
    }
  }

  /** In tiling rows the query of `Latest` finds the last row, the only open one. */
  lemma {:induction false} LatestIsLast(rows: seq<Interval>)
    requires Tiles(rows) && rows != []
    ensures Latest(rows) == Some(|rows| - 1)
  {
    TilesAscend(rows, Latest(rows).value, |rows| - 1);
  }

  /** One call on tiling rows: the last row stays or is closed, and at most one row is added. */
  lemma {:induction false} RecordOnTiles(rows: seq<Interval>, o: Observation)
    requires Tiles(rows) && rows != []
    requires rows[|rows| - 1].category != o.category ==> rows[|rows| - 1].validFrom <= o.at
    ensures
      var rows', last := Record(rows, o), |rows| - 1;
      && Tiles(rows') && rows'[..last] == rows[..last]
      && rows'[last].validFrom == rows[last].validFrom
      && rows'[last].category == rows[last].category
      && if rows[last].category == o.category then rows' == rows
         else |rows'| == |rows| + 1 && rows'[last].validTo == Some(o.at)
              && rows'[|rows|] == Interval(o.sourceId, o.category, o.at, None)
  {
    LatestIsLast(rows);
  }

  /** One more upsert, no earlier than the previous ones, keeps the rows an index of the log. */
  lemma {:induction false} RecordKeepsIndex(rows: seq<Interval>, log: seq<Observation>, o: Observation)
    requires Indexes(rows, log)
    requires log != [] ==> log[|log| - 1].at <= o.at
    ensures Indexes(Record(rows, o), log + [o])
  {
    var rows', log' := Record(rows, o), log + [o];
    assert log'[..|log|] == log;
    if rows != [] {
      RecordOnTiles(rows, o);
      hide Record;
      var last := |rows| - 1;
      forall i, t | 0 <= i < |rows'| && Covers(rows'[i], t)
        ensures CategoryAt(log', t) == Some(rows'[i].category)
      {
        if i < last {
          assert rows'[..last][i] == rows[i];
          TilesAscend(rows, i, last);
        }
        if i < |rows| && t < o.at {
          assert Covers(rows[i], t);
        }
      }
    }
  }

  /** Over every nondecreasing run of upserts the rows are an index of the log. */
  lemma {:induction false} HistoryIndexesLog(log: seq<Observation>)
    requires Nondecreasing(log)
    ensures Indexes(HistoryOf(log), log)
  {
    if log != [] {
      var n := |log| - 1;
      HistoryIndexesLog(log[..n]);
      RecordKeepsIndex(HistoryOf(log[..n]), log[..n], log[n]);
      assert log[..n] + [log[n]] == log;
    }
  }

  /**
   Reading the index: every instant from the first upsert on lies in exactly one interval, and that interval
   holds the category of the last upsert made at or before it.
   */
  lemma {:induction false} LookupIsExact(rows: seq<Interval>, log: seq<Observation>, t: int)
    requires Indexes(rows, log) && log != [] && log[0].at <= t
    ensures exists i :: 0 <= i < |rows| && Covers(rows[i], t) && CategoryAt(log, t) == Some(rows[i].category)
    ensures forall i, j :: 0 <= i < |rows| && 0 <= j < |rows| && Covers(rows[i], t) && Covers(rows[j], t) ==> i == j
  {
    var i := CoveringRow(rows, t, |rows| - 1);
    forall a, b | 0 <= a < b < |rows| && Covers(rows[a], t)
      ensures !Covers(rows[b], t)
    {
      TilesAscend(rows, a, b);
    }
  }

  /** Walks back from row `k` to the interval that contains `t`. */
  lemma {:induction false} CoveringRow(rows: seq<Interval>, t: int, k: nat) returns (i: nat)
    requires Tiles(rows) && k < |rows| && rows[0].validFrom <= t
    requires rows[k].validTo.Some? ==> t < rows[k].validTo.value
    ensures i < |rows| && Covers(rows[i], t)
  {
    if rows[k].validFrom <= t {
      i := k;
    } else {
      i := CoveringRow(rows, t, k - 1);
    }
  }

  // ----- Run-length form -----

  /** Length of the leading run of equal categories. */
  function RunLength(log: seq<Observation>): (k: nat)
    requires log != []
    ensures 1 <= k <= |log|
    ensures forall i :: 0 <= i < k ==> log[i].category == log[0].category
    ensures k < |log| ==> log[k].category != log[0].category
  {
    if |log| == 1 || log[1].category != log[0].category then 1 else 1 + RunLength(log[1..])
  }

  /** One interval for each maximal run of equal categories, closed when the next run starts. */
  function Compress(log: seq<Observation>): seq<Interval>
    decreases |log|
  {
    if log == [] then []
    else
      var k := RunLength(log);
      var end := if k < |log| then Some(log[k].at) else None;
      [Interval(log[0].sourceId, log[0].category, log[0].at, end)] + Compress(log[k..])
  }

  /** How a run-length encoding grows at its end. */
  function Extend(rows: seq<Interval>, o: Observation): seq<Interval>
    requires rows != []
  {
    var last := |rows| - 1;
    if rows[last].category == o.category then rows
    else rows[..last] + [rows[last].(validTo := Some(o.at)), Interval(o.sourceId, o.category, o.at, None)]
  }

  /** `Compress` seen from the other end: what appending one observation does to it. */
  lemma {:induction false} CompressSnoc(log: seq<Observation>, o: Observation)
    requires log != []
    ensures Compress(log) != []
    ensures Compress(log)[|Compress(log)| - 1].category == log[|log| - 1].category
    ensures Compress(log + [o]) == Extend(Compress(log), o)
    decreases |log|
  {
    var k := RunLength(log);
    RunLengthOfExtension(log, o);
    if k < |log| {
      CompressSnoc(log[k..], o);
      ExtendInTail(log, o);
    } else {
      ExtendSingleRun(log, o);
    }
  }

  /** A single run either grows or is closed by the new observation. */
  lemma {:induction false} ExtendSingleRun(log: seq<Observation>, o: Observation)
    requires log != [] && RunLength(log) == |log|
    requires RunLength(log + [o]) == if o.category == log[0].category then |log| + 1 else |log|
    ensures Compress(log) == [Interval(log[0].sourceId, log[0].category, log[0].at, None)]
    ensures Compress(log + [o]) == Extend(Compress(log), o)
  {
    assert Compress(log[|log|..]) == [];
    if o.category == log[0].category {
      assert (log + [o])[|log| + 1..] == [];
    } else {
      assert (log + [o])[|log|..] == [o];
      assert [o][1..] == [];
      assert Compress([o]) == [Interval(o.sourceId, o.category, o.at, None)];
    }
  }

  /** Behind a first run that ends inside the log, only the rest of the encoding grows. */
  lemma {:induction false} ExtendInTail(log: seq<Observation>, o: Observation)
    requires log != [] && RunLength(log) < |log|
    requires RunLength(log + [o]) == RunLength(log)
    requires
      var rest := log[RunLength(log)..];
      Compress(rest) != [] && Compress(rest + [o]) == Extend(Compress(rest), o)
    ensures Compress(log + [o]) == Extend(Compress(log), o)
  {
    hide RunLength, Extend;
    var k := RunLength(log);
    var rest := log[k..];
    var first := Interval(log[0].sourceId, log[0].category, log[0].at, Some(log[k].at));
    assert (log + [o])[k..] == rest + [o];
    assert Compress(log) == [first] + Compress(rest);
    assert Compress(log + [o]) == [first] + Compress(rest + [o]);
    ExtendBehind(first, Compress(rest), o);
  }

  lemma {:induction false} ExtendBehind(first: Interval, rows: seq<Interval>, o: Observation)
    requires rows != []
    ensures Extend([first] + rows, o) == [first] + Extend(rows, o)
  {
  }

  lemma {:induction false} RunLengthOfExtension(log: seq<Observation>, o: Observation)
    requires log != []
    ensures
      var k := RunLength(log);
      RunLength(log + [o]) == if k == |log| && o.category == log[0].category then k + 1 else k
  {
    var log' := log + [o];
    if |log| == 1 {
      assert log'[1..] == [o];
    } else if log[1].category == log[0].category {
      assert log'[1..] == log[1..] + [o];
      RunLengthOfExtension(log[1..], o);
    }
  }

  /** On tiling rows one call of `_record_category_change` extends the encoding. */
  lemma {:induction false} RecordExtends(rows: seq<Interval>, o: Observation)
    requires Tiles(rows) && rows != []
    ensures Record(rows, o) == Extend(rows, o)
  {
    LatestIsLast(rows);
  }

  // ----- Exactly when the rows tile time -----

  /** Position of the observation that began the last run of equal categories. */
  function LastChange(log: seq<Observation>): (k: nat)
    requires log != []
    ensures k < |log|
  {
    var n := |log| - 1;
    if n == 0 || log[n].category != log[n - 1].category then n else LastChange(log[..n])
  }

  /** Every observation that changes the category is no earlier than the one that changed it before. */
  predicate ChangesAscend(log: seq<Observation>) {
    |log| <= 1
    || (&& ChangesAscend(log[..|log| - 1])
        && var n := |log| - 1;
           log[n].category != log[n - 1].category ==> log[LastChange(log[..n])].at <= log[n].at)
  }

  lemma {:induction false} NondecreasingChangesAscend(log: seq<Observation>)
    requires Nondecreasing(log)
    ensures ChangesAscend(log)
  {
    if |log| > 1 {
      NondecreasingChangesAscend(log[..|log| - 1]);
    }
  }

  /** What the table holds while changes ascend: the encoding of the log, whose last row began with the last change. */
  ghost predicate Encodes(rows: seq<Interval>, log: seq<Observation>) {
    && Tiles(rows) && rows == Compress(log)
    && (log != [] ==>
          && rows != []
          && rows[|rows| - 1].validFrom == log[LastChange(log)].at
          && rows[|rows| - 1].category == log[|log| - 1].category)
  }

  lemma {:induction false} RecordKeepsEncoding(rows: seq<Interval>, log: seq<Observation>, o: Observation)
    requires log != [] && Encodes(rows, log)
    requires o.category != log[|log| - 1].category ==> log[LastChange(log)].at <= o.at
    ensures Encodes(Record(rows, o), log + [o])
  {
    hide Compress, Extend;
    assert (log + [o])[..|log|] == log;
    RecordOnTiles(rows, o);
    RecordExtends(rows, o);
    CompressSnoc(log, o);
  }

  /** While changes ascend the table is the run-length encoding of the log, rows and bounds alike. */
  lemma {:induction false} HistoryIsRunLengthEncoding(log: seq<Observation>)
    requires ChangesAscend(log)
    ensures Encodes(HistoryOf(log), log)
  {
    hide Record, RunLength, Tiles, LastChange;
    if |log| == 1 {
      OneObservation(log[0]);
      assert log == [log[0]];
    } else if log != [] {
      var n := |log| - 1;
      HistoryIsRunLengthEncoding(log[..n]);
      RecordKeepsEncoding(HistoryOf(log[..n]), log[..n], log[n]);
      assert log == log[..n] + [log[n]];
    } else {
      NothingObserved();
    }
  }

  lemma OneObservation(o: Observation)
    ensures Encodes(HistoryOf([o]), [o])
  {
    assert [o][..0] == [] && [o][1..] == [];
  }

  lemma NothingObserved()
    ensures Encodes(HistoryOf([]), [])
  {
  }

  /** A row that opens before its predecessor did. */
  ghost predicate Descends(rows: seq<Interval>) {
    exists i :: 0 <= i < |rows| - 1 && rows[i].validFrom > rows[i + 1].validFrom
  }

  /** No later upsert moves the instant at which a row opened. */
  lemma {:induction false} DescentStays(rows: seq<Interval>, o: Observation)
    requires Descends(rows)
    ensures Descends(Record(rows, o))
  {
    var rows' := Record(rows, o);
    var i :| 0 <= i < |rows| - 1 && rows[i].validFrom > rows[i + 1].validFrom;
    assert rows'[i].validFrom > rows'[i + 1].validFrom;
  }

  /** A change that goes back behind the previous one opens a row before its predecessor. */
  lemma {:induction false} BackwardChangeDescends(log: seq<Observation>)
    requires !ChangesAscend(log)
    ensures Descends(HistoryOf(log))
  {
    var n := |log| - 1;
    var rows, rows' := HistoryOf(log[..n]), HistoryOf(log);
    if ChangesAscend(log[..n]) {
      HistoryIsRunLengthEncoding(log[..n]);
      LatestIsLast(rows);
      var last := |rows| - 1;
      assert rows'[last].validFrom > rows'[last + 1].validFrom;
    } else {
      BackwardChangeDescends(log[..n]);
      DescentStays(rows, log[n]);
    }
  }

  /** The rows tile time exactly when every change of category is no earlier than the previous one. */
  lemma {:induction false} TilesIffChangesAscend(log: seq<Observation>)
    ensures Tiles(HistoryOf(log)) <==> ChangesAscend(log)
  {
    if ChangesAscend(log) {
      HistoryIsRunLengthEncoding(log);
    } else {
      BackwardChangeDescends(log);
    }
  }

  /** What then happens: after instants 5, 3, 4 two intervals of one category are open at once. */
  lemma BackwardClockLeavesTwoOpenIntervals()
    ensures
      var a, b := Category(Some("a"), None), Category(Some("b"), None);
      var rows := HistoryOf([Observation("s", a, 5), Observation("s", b, 3), Observation("s", b, 4)]);
      |rows| == 3 && rows[1].validTo.None? && rows[2].validTo.None? && rows[1].category == rows[2].category
  {
    var a, b := Category(Some("a"), None), Category(Some("b"), None);
    var o1, o2, o3 := Observation("s", a, 5), Observation("s", b, 3), Observation("s", b, 4);
    var r1 := [Interval("s", a, 5, None)];
    var r2 := [Interval("s", a, 5, Some(3)), Interval("s", b, 3, None)];
    assert [o1, o2, o3][..2] == [o1, o2] && [o1, o2][..1] == [o1] && [o1][..0] == [];
    assert HistoryOf([o1]) == r1;
    assert HistoryOf([o1, o2]) == r2;
    assert Latest(r2) == Some(0);
  }
}
