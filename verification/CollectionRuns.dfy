/**
 The history of collections (app/repositories/collection_run_repository.py) and its projection by the status endpoint
 (app/api/v1/collection.py). A row's position stands for its id.
 */
module CollectionRuns {
  import opened Wrappers

  datatype RunStatus = Running | Success | Error

  datatype CollectionRun = CollectionRun(startedAt: int, heartbeatAt: int, finishedAt: Option<int>, status: RunStatus)

  // ----- The writes -----

  function Started(at: int): CollectionRun {
    CollectionRun(at, at, None, Running)
  }

  function Beaten(run: CollectionRun, at: int): CollectionRun {
    run.(heartbeatAt := at)
  }

  function FinishedAs(run: CollectionRun, status: RunStatus, at: int): CollectionRun {
    run.(heartbeatAt := at, finishedAt := Some(at), status := status)
  }

  predicate Stale(run: CollectionRun, olderThan: int) {
    run.status.Running? && run.heartbeatAt < olderThan
  }

  function AbandonedRow(run: CollectionRun, olderThan: int): CollectionRun {
    if Stale(run, olderThan) then run.(status := Error, finishedAt := Some(run.heartbeatAt)) else run
  }

  function Abandoned(rows: seq<CollectionRun>, olderThan: int): (rows': seq<CollectionRun>)
    ensures |rows'| == |rows|
    ensures forall i :: 0 <= i < |rows| ==> rows'[i] == AbandonedRow(rows[i], olderThan)
  {
    seq(|rows|, i requires 0 <= i < |rows| => AbandonedRow(rows[i], olderThan))
  }

  function CountStale(rows: seq<CollectionRun>, olderThan: int): nat {
    if rows == [] then 0
    else CountStale(rows[..|rows| - 1], olderThan) + if Stale(rows[|rows| - 1], olderThan) then 1 else 0
  }

  // ----- The queries -----

  /** `ORDER BY started_at DESC, id DESC LIMIT 1` among all rows, or among those that are not running. */
  function LatestRun(rows: seq<CollectionRun>, finishedOnly: bool): (id: Option<nat>)
    ensures id.Some? ==> id.value < |rows| && (finishedOnly ==> !rows[id.value].status.Running?)
    ensures id.Some? ==>
              forall j :: 0 <= j < |rows| && !(finishedOnly && rows[j].status.Running?) ==>
                            || rows[j].startedAt < rows[id.value].startedAt
                            || (rows[j].startedAt == rows[id.value].startedAt && j <= id.value)
    ensures id.None? ==> forall j :: 0 <= j < |rows| ==> finishedOnly && rows[j].status.Running?
  {
    if rows == [] then None
    else
      var last := |rows| - 1;
      var before := LatestRun(rows[..last], finishedOnly);
      if finishedOnly && rows[last].status.Running? then before
      else if before.Some? && rows[last].startedAt < rows[before.value].startedAt then before
      else Some(last)
  }

  /** What `GET /collection/status` describes. */
  datatype StatusView = NoHistory | Shows(id: nat, running: bool)

  function StatusOf(rows: seq<CollectionRun>, now: int, timeout: int, localRunning: bool): StatusView {
    var latest, finished := LatestRun(rows, false), LatestRun(rows, true);
    if latest.Some? && rows[latest.value].status.Running?
       && (now - rows[latest.value].heartbeatAt <= timeout || localRunning) then Shows(latest.value, true)
    else if finished.Some? then Shows(finished.value, false)
    else NoHistory
  }

  class CollectionRunRepository {
    var rows: seq<CollectionRun>

    constructor (rows: seq<CollectionRun>)
      ensures this.rows == rows
    {
      this.rows := rows;
    }

    method Start(startedAt: int) returns (id: nat)
      modifies this
      ensures id == |old(rows)| && rows == old(rows) + [Started(startedAt)]
    {
      id, rows := |rows|, rows + [CollectionRun(startedAt, startedAt, None, Running)];
    }

    method Heartbeat(id: nat, at: int)
      requires id < |rows|
      modifies this
      ensures rows == old(rows)[id := Beaten(old(rows[id]), at)]
    {
      rows := rows[id := rows[id].(heartbeatAt := at)];
    }

    /** `mark_abandoned`. */
    method MarkAbandoned(olderThan: int) returns (count: nat)
      modifies this
      ensures rows == Abandoned(old(rows), olderThan)
      ensures count == CountStale(old(rows), olderThan)
    {
      ghost var before := rows;
      count := 0;
      for i := 0 to |rows|
        invariant |rows| == |before|
        invariant forall j :: i <= j < |before| ==> rows[j] == before[j]
        invariant forall j :: 0 <= j < i ==> rows[j] == AbandonedRow(before[j], olderThan)
        invariant count == CountStale(before[..i], olderThan)
      {
        assert before[..i + 1][..i] == before[..i];
        if rows[i].status.Running? && rows[i].heartbeatAt < olderThan {
          var run := rows[i].(status := Error);
          rows := rows[i := run.(finishedAt := Some(run.heartbeatAt))];
          count := count + 1;
        }
      }
      assert before[..|before|] == before;
    }

    /** `finish_success` and `finish_error`. */
    method Finish(id: nat, status: RunStatus, at: int)
      requires id < |rows|
      modifies this
      ensures rows == old(rows)[id := FinishedAs(old(rows[id]), status, at)]
    {
      var run := rows[id].(heartbeatAt := at, finishedAt := Some(at));
      rows := rows[id := run.(status := status)];
    }
  }

  /** The counter of `mark_abandoned` is the number of rows that were running with an old heartbeat. */
  lemma {:induction false} CountStaleIsExact(rows: seq<CollectionRun>, olderThan: int)
    ensures
      CountStale(rows, olderThan) ==
      |set i | 0 <= i < |rows| && rows[i].status.Running? && rows[i].heartbeatAt < olderThan|
  {
    var stale := set i | 0 <= i < |rows| && rows[i].status.Running? && rows[i].heartbeatAt < olderThan;
    if rows == [] {
      assert stale == {};
    } else {
      var last := |rows| - 1;
      var before := set i | 0 <= i < |rows[..last]| && rows[..last][i].status.Running? && rows[..last][i].heartbeatAt < olderThan;
      CountStaleIsExact(rows[..last], olderThan);
      assert stale == if Stale(rows[last], olderThan) then before + {last} else before;
    }
  }
}
