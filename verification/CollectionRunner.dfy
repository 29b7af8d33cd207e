/** The lock and the runner as objects (app/collectors/lock.py, app/collectors/runner.py), for one undisturbed call. */
module CollectionRunner {
  import opened Wrappers
  import opened CollectionRuns

  /** The advisory lock of the database: the connection that holds it. */
  class AdvisoryLock {
    var holder: Option<nat>

    constructor ()
      ensures holder.None?
    {
      holder := None;
    }
  }

  datatype Attempt = Acquired | Busy | Raised

  class DistributedCollectionLock {
    const database: AdvisoryLock
    const isPostgres: bool
    const connectionId: nat
    var connected: bool

    ghost predicate Held()
      reads this, database
    {
      connected && database.holder == Some(connectionId)
    }

    constructor (database: AdvisoryLock, isPostgres: bool, connectionId: nat)
      ensures this.database == database && this.isPostgres == isPostgres && this.connectionId == connectionId
      ensures !connected
    {
      this.database, this.isPostgres, this.connectionId, this.connected := database, isPostgres, connectionId, false;
    }

    /** `try_acquire`; `answers` says that connection and query do not raise. */
    method TryAcquire(answers: bool) returns (attempt: Attempt)
      requires !connected && database.holder != Some(connectionId)
      modifies this, database
      ensures !isPostgres ==> attempt.Acquired? && !connected && database.holder == old(database.holder)
      ensures isPostgres ==>
                && (attempt.Acquired? <==> answers && old(database.holder).None?)
                && (attempt.Busy? <==> answers && old(database.holder).Some?)
                && (attempt.Acquired? <==> Held())
                && (!attempt.Acquired? ==> !connected && database.holder == old(database.holder))
    {
      if !isPostgres {
        return Acquired;
      }
      if !answers {
        return Raised;
      }
      if database.holder.None? {
        database.holder, connected := Some(connectionId), true;
        return Acquired;
      }
      return Busy;
    }

    /** `release`, which may be called in any state and more than once. */
    method Release()
      requires connected ==> Held()
      modifies this, database
      ensures !connected
      ensures database.holder == if old(connected) then None else old(database.holder)
    {
      if connected {
        database.holder, connected := None, false;
      }
    }
  }

  /** What one call meets: which lines raise, when its heartbeats and its end are, and how the collection ends. */
  datatype Script = Script(
    answers: bool,
    startedAt: int,
    timeout: int,
    setupFine: bool,
    beats: seq<int>,
    collects: bool,
    endedAt: int,
    recorded: bool)

  datatype Result = AlreadyRunning | Failed | Collected

  /** The run's own row after its heartbeats. */
  function BeatenBy(run: CollectionRun, beats: seq<int>): CollectionRun {
    if beats == [] then run else Beaten(BeatenBy(run, beats[..|beats| - 1]), beats[|beats| - 1])
  }

  function EndedRow(script: Script): CollectionRun {
    var run := BeatenBy(Started(script.startedAt), script.beats);
    if script.collects then FinishedAs(run, Success, script.endedAt)
    else if script.recorded then FinishedAs(run, Error, script.endedAt)
    else run
  }

  /** The table after a call that got both locks. */
  function RowsAfterRun(rows: seq<CollectionRun>, script: Script): seq<CollectionRun> {
    if script.setupFine then Abandoned(rows, script.startedAt - script.timeout) + [EndedRow(script)] else rows
  }

  /**
   What the history holds after a call that got in and set up: one row more, begun with the call, a success if the call
   collected, an error if it failed and could record that, and running otherwise; its heartbeat is its end, or the last
   one it made, or its start. An older row changes only if it was running with a heartbeat before the timeout.
   */
  ghost predicate Recorded(before: seq<CollectionRun>, rows: seq<CollectionRun>, script: Script, collected: bool) {
    && |rows| == |before| + 1
    && (forall i :: 0 <= i < |before| ==>
          rows[i] ==
          if before[i].status.Running? && before[i].heartbeatAt < script.startedAt - script.timeout
          then before[i].(status := Error, finishedAt := Some(before[i].heartbeatAt)) else before[i])
    && var run, ended := rows[|before|], collected || script.recorded;
      && run.startedAt == script.startedAt
      && (run.status.Success? <==> collected) && (run.status.Error? <==> !collected && script.recorded)
      && run.finishedAt == (if ended then Some(script.endedAt) else None)
      && run.heartbeatAt ==
         if ended then script.endedAt else if script.beats == [] then script.startedAt else script.beats[|script.beats| - 1]
  }

  lemma {:induction false} RowsAreRecorded(rows: seq<CollectionRun>, script: Script)
    requires script.setupFine
    ensures Recorded(rows, RowsAfterRun(rows, script), script, script.collects)
  {
    BeatenRow(Started(script.startedAt), script.beats);
  }

  /** Heartbeats change nothing but the last heartbeat. */
  lemma {:induction false} BeatenRow(run: CollectionRun, beats: seq<int>)
    ensures BeatenBy(run, beats) == if beats == [] then run else run.(heartbeatAt := beats[|beats| - 1])
  {
    if beats != [] {
      BeatenRow(run, beats[..|beats| - 1]);
    }
  }

  class CollectionRunner {
    var threadLocked: bool
    var runningSince: Option<int>

    constructor ()
      ensures !threadLocked && runningSince.None?
    {
      threadLocked, runningSince := false, None;
    }

    /** `run`: refused calls touch nothing; every other call gives both locks back, however it ends. */
    method Run(runs: CollectionRunRepository, lock: DistributedCollectionLock, script: Script) returns (result: Result)
      requires !lock.connected && lock.database.holder != Some(lock.connectionId)
      modifies this, runs, lock, lock.database
      ensures threadLocked == old(threadLocked) && !lock.connected && lock.database.holder == old(lock.database.holder)
      ensures
        var entered := !old(threadLocked) && (!lock.isPostgres || (script.answers && old(lock.database.holder).None?));
        && (result.AlreadyRunning? <==> !entered && (old(threadLocked) || script.answers))
        && runs.rows == (if entered then RowsAfterRun(old(runs.rows), script) else old(runs.rows))
        && runningSince == (if !entered then old(runningSince) else if script.setupFine then None else Some(script.startedAt))
        && (result.Collected? <==> entered && script.setupFine && script.collects)
        && (if entered && script.setupFine then Recorded(old(runs.rows), runs.rows, script, result.Collected?)
            else runs.rows == old(runs.rows))
    {
      if threadLocked {
        return AlreadyRunning;
      }
      threadLocked := true;
      var attempt := lock.TryAcquire(script.answers);
      if attempt.Acquired? {
        result := RunLocked(runs, script);
      } else {
        result := if attempt.Busy? then AlreadyRunning else Failed;
      }
      lock.Release();
      threadLocked := false;
    }

    /** `_run_locked`. */
    method RunLocked(runs: CollectionRunRepository, script: Script) returns (result: Result)
      modifies this`runningSince, runs
      ensures runs.rows == RowsAfterRun(old(runs.rows), script)
      ensures runningSince == if script.setupFine then None else Some(script.startedAt)
      ensures result == if script.setupFine && script.collects then Collected else Failed
      ensures if script.setupFine then Recorded(old(runs.rows), runs.rows, script, result.Collected?)
              else runs.rows == old(runs.rows)
    {
      runningSince := Some(script.startedAt);
      var saved := runs.rows;
      var _ := runs.MarkAbandoned(script.startedAt - script.timeout);
      var id := runs.Start(script.startedAt);
      if !script.setupFine {
        runs.rows := saved;
        return Failed;
      }
      ghost var before := runs.rows[..id];
      RowsAreRecorded(saved, script);
      for i := 0 to |script.beats|
        invariant runs.rows == before + [BeatenBy(Started(script.startedAt), script.beats[..i])]
      {
        assert script.beats[..i + 1][..i] == script.beats[..i];
        runs.Heartbeat(id, script.beats[i]);
      }
      assert script.beats[..|script.beats|] == script.beats;
      if script.collects {
        runs.Finish(id, Success, script.endedAt);
        result := Collected;
      } else {
        if script.recorded {
          runs.Finish(id, Error, script.endedAt);
        }
        result := Failed;
      }
      runningSince := None;
    }
  }
}
