/** How collections end in the history: which line makes a row a success or an error, and what the endpoint shows. */
module RunOutcomes {
  import opened Wrappers
  import opened CollectionRuns
  import opened CollectionExclusion

  // ----- What finishes a row -----

  /** The event is the next line of a thread that is at `phase`, and it does not raise. */
  predicate Goes(s: System, e: Event, phase: Phase) {
    e.Step? && e.fine && e.thread.process < s.processes && PhaseOf(s, e.thread) == phase
  }

  /** Among the first `n` events the collection of row `i` came to its end. */
  predicate Succeeded(s: System, events: seq<Event>, n: nat, i: nat)
    requires n <= |events|
  {
    n > 0 && (Succeeded(s, events, n - 1, i) || Goes(Run(s, events, n - 1), events[n - 1], Working(i)))
  }

  /** Among the first `n` events its error was recorded. */
  predicate ErrorRecorded(s: System, events: seq<Event>, n: nat, i: nat)
    requires n <= |events|
  {
    n > 0 && (ErrorRecorded(s, events, n - 1, i) || Goes(Run(s, events, n - 1), events[n - 1], Failing(i)))
  }

  /** Another collection starts while row `i` is running with a heartbeat older than its start less the timeout. */
  predicate Marks(s: System, e: Event, i: nat) {
    && e.Step? && e.fine && e.thread.process < s.processes && PhaseOf(s, e.thread).Starting?
    && i < |s.rows| && s.rows[i].status.Running?
    && s.rows[i].heartbeatAt < PhaseOf(s, e.thread).startedAt - s.timeout
  }

  predicate Marked(s: System, events: seq<Event>, n: nat, i: nat)
    requires n <= |events|
  {
    n > 0 && (Marked(s, events, n - 1, i) || Marks(Run(s, events, n - 1), events[n - 1], i))
  }

  // ----- Rows have one owner -----

  predicate Owns(s: System, t: Thread, i: nat) {
    PhaseOf(s, t) == Working(i) || PhaseOf(s, t) == Failing(i)
  }

  ghost predicate OwnersApart(s: System) {
    && (forall t, i: nat :: Owns(s, t, i) ==> i < |s.rows|)
    && (forall t, u, i: nat :: Owns(s, t, i) && Owns(s, u, i) ==> t == u)
  }

  /** After an event a thread owns the row that it owned before, or the one that its own line has just added. */
  lemma {:induction false} NextOwns(s: System, e: Event, t: Thread, i: nat)
    requires Owns(Next(s, e), t, i)
    ensures Owns(s, t, i) || (e.Step? && e.thread == t && i == |s.rows| < |Next(s, e).rows|)
  {
    hide ThreadLockAfter, AdvisoryAfter, RunningSinceAfter, Abandoned;
  }

  lemma {:induction false} RowsGrow(s: System, e: Event)
    ensures |s.rows| <= |Next(s, e).rows|
  {
    hide NextPhase, ThreadLockAfter, AdvisoryAfter, RunningSinceAfter;
  }

  lemma {:induction false} NextOwners(s: System, e: Event)
    requires OwnersApart(s)
    ensures OwnersApart(Next(s, e)) && |s.rows| <= |Next(s, e).rows|
  {
    RowsGrow(s, e);
    hide Next, Owns;
    forall t, i: nat | Owns(Next(s, e), t, i)
      ensures i < |Next(s, e).rows|
    {
      NextOwns(s, e, t, i);
    }
    forall t, u, i: nat | Owns(Next(s, e), t, i) && Owns(Next(s, e), u, i)
      ensures t == u
    {
      NextOwns(s, e, t, i);
      NextOwns(s, e, u, i);
    }
  }

  lemma {:induction false} OwnersStayApart(s: System, events: seq<Event>, n: nat)
    requires Idle(s) && n <= |events|
    ensures OwnersApart(Run(s, events, n)) && |s.rows| <= |Run(s, events, n).rows|
  {
    hide Next;
    if n > 0 {
      OwnersStayApart(s, events, n - 1);
      NextOwners(Run(s, events, n - 1), events[n - 1]);
    }
  }

  // ----- One row over a run -----

  /** What an event does to the status of a row that is already there. */
  lemma {:induction false} NextStatus(s: System, e: Event, i: nat)
    requires i < |s.rows|
    ensures i < |Next(s, e).rows|
    ensures
      Next(s, e).rows[i].status ==
      if Goes(s, e, Working(i)) then Success
      else if Goes(s, e, Failing(i)) || Marks(s, e, i) then Error
      else s.rows[i].status
  {
    hide NextPhase, ThreadLockAfter, AdvisoryAfter, RunningSinceAfter;
  }

  /** A row that an event adds is running, and nothing has finished it. */
  lemma {:induction false} NextNewRow(s: System, e: Event, i: nat)
    requires |s.rows| <= i < |Next(s, e).rows|
    ensures Next(s, e).rows[i].status.Running? && !Goes(s, e, Working(i)) && !Goes(s, e, Failing(i)) && !Marks(s, e, i)
  {
    hide NextPhase, ThreadLockAfter, AdvisoryAfter, RunningSinceAfter;
  }

  /** A thread whose collection came to its end no longer owns the row, and neither does anybody else. */
  ghost predicate Disowned(s: System, i: nat) {
    i < |s.rows| && forall t :: !Owns(s, t, i)
  }

  lemma {:induction false} StaysDisowned(s: System, e: Event, i: nat)
    requires Disowned(s, i)
    ensures Disowned(Next(s, e), i) && !Goes(s, e, Working(i)) && !Goes(s, e, Failing(i))
  {
    RowsGrow(s, e);
    if e.Step? {
      assert !Owns(s, e.thread, i);
    }
    hide Next;
    forall t
      ensures !Owns(Next(s, e), t, i)
    {
      if Owns(Next(s, e), t, i) {
        NextOwns(s, e, t, i);
      }
    }
  }

  /** The last line of a collection gives its row away. */
  lemma {:induction false} EndDisowns(s: System, e: Event, i: nat)
    requires OwnersApart(s) && i < |s.rows| && (Goes(s, e, Working(i)) || Goes(s, e, Failing(i)))
    ensures Disowned(Next(s, e), i)
  {
    assert Owns(s, e.thread, i);
    RowsGrow(s, e);
    forall t
      ensures !Owns(Next(s, e), t, i)
    {
      if Owns(Next(s, e), t, i) {
        NextOwns(s, e, t, i);
      }
    }
  }

  ghost predicate Ended(s: System, events: seq<Event>, n: nat, i: nat)
    requires n <= |events|
  {
    Succeeded(s, events, n, i) || ErrorRecorded(s, events, n, i)
  }

  lemma {:induction false} EndedIsDisowned(s: System, events: seq<Event>, n: nat, i: nat)
    requires Idle(s) && n <= |events| && i < |Run(s, events, n).rows| && Ended(s, events, n, i)
    ensures Disowned(Run(s, events, n), i)
  {
    hide Next, Disowned, Goes, OwnersApart;
    var before, e := Run(s, events, n - 1), events[n - 1];
    OwnersStayApart(s, events, n - 1);
    if i < |before.rows| {
      if Ended(s, events, n - 1, i) {
        EndedIsDisowned(s, events, n - 1, i);
        StaysDisowned(before, e, i);
      } else {
        EndDisowns(before, e, i);
      }
    } else {
      NextNewRow(before, e, i);
      NothingBefore(s, events, n - 1, i);
    }
  }

  /** Nothing has happened to a row that is not there yet. */
  lemma {:induction false} NothingBefore(s: System, events: seq<Event>, n: nat, i: nat)
    requires Idle(s) && n <= |events| && |Run(s, events, n).rows| <= i
    ensures !Succeeded(s, events, n, i) && !ErrorRecorded(s, events, n, i) && !Marked(s, events, n, i)
  {
    hide Next, OwnersApart;
    if n > 0 {
      var before := Run(s, events, n - 1);
      RowsGrow(before, events[n - 1]);
      OwnersStayApart(s, events, n - 1);
      NothingBefore(s, events, n - 1, i);
      NoOwnerYet(before, events[n - 1], i);
    }
  }

  lemma {:induction false} NoOwnerYet(s: System, e: Event, i: nat)
    requires OwnersApart(s) && |s.rows| <= i
    ensures !Goes(s, e, Working(i)) && !Goes(s, e, Failing(i)) && !Marks(s, e, i)
  {
    if e.Step? {
      assert !Owns(s, e.thread, i);
    }
  }

  /**
   Over every run, with any number of processes, threads and crashes, a row that the run adds is a success exactly when its
   collection came to its end; it is an error exactly when it is no success and its error was recorded or another
   collection marked it; and it is running otherwise.
   */
  lemma {:induction false} RowTellsTheEnding(s: System, events: seq<Event>, n: nat, i: nat)
    requires Idle(s) && n <= |events| && |s.rows| <= i < |Run(s, events, n).rows|
    ensures
      var status := Run(s, events, n).rows[i].status;
      && (status.Success? <==> Succeeded(s, events, n, i))
      && (status.Error? <==> !Succeeded(s, events, n, i) && (ErrorRecorded(s, events, n, i) || Marked(s, events, n, i)))
  {
    hide Next, Goes, Marks, Disowned;
    if n > 0 {
      var before, e := Run(s, events, n - 1), events[n - 1];
      if i < |before.rows| {
        RowTellsTheEnding(s, events, n - 1, i);
        NextStatus(before, e, i);
        SuccessIsLast(s, events, n, i);
      } else {
        NextNewRow(before, e, i);
        NothingBefore(s, events, n - 1, i);
      }
    }
  }

  /** What has succeeded is neither recorded as an error nor marked any more. */
  lemma {:induction false} SuccessIsLast(s: System, events: seq<Event>, n: nat, i: nat)
    requires Idle(s) && 0 < n <= |events| && |s.rows| <= i < |Run(s, events, n - 1).rows|
    requires Succeeded(s, events, n - 1, i) ==> Run(s, events, n - 1).rows[i].status.Success?
    ensures
      var before, e := Run(s, events, n - 1), events[n - 1];
      Succeeded(s, events, n - 1, i) ==> !Goes(before, e, Failing(i)) && !Marks(before, e, i)
  {
    hide Next, Disowned, Goes;
    if Succeeded(s, events, n - 1, i) {
      EndedIsDisowned(s, events, n - 1, i);
      StaysDisowned(Run(s, events, n - 1), events[n - 1], i);
    }
  }

  // ----- What the status endpoint shows -----

  /** Row `i` began last, with the greater id among those that began together; perhaps only among the finished ones. */
  ghost predicate BeganLast(rows: seq<CollectionRun>, i: nat, finishedOnly: bool) {
    && i < |rows| && (finishedOnly ==> !rows[i].status.Running?)
    && forall j :: 0 <= j < |rows| && (finishedOnly ==> !rows[j].status.Running?) ==>
         rows[j].startedAt < rows[i].startedAt || (rows[j].startedAt == rows[i].startedAt && j <= i)
  }

  /** The collection that began last is running, and its heartbeat is fresh or this process runs one. */
  ghost predicate ShownLive(rows: seq<CollectionRun>, i: nat, now: int, timeout: int, local: bool) {
    && BeganLast(rows, i, false) && rows[i].status.Running?
    && (now - rows[i].heartbeatAt <= timeout || local)
  }

  /** The endpoint shows the live collection; failing that the finished one that began last; failing that nothing. */
  lemma {:induction false} StatusIsExact(rows: seq<CollectionRun>, now: int, timeout: int, local: bool, i: nat)
    ensures
      var view := StatusOf(rows, now, timeout, local);
      && (view == Shows(i, true) <==> ShownLive(rows, i, now, timeout, local))
      && (view == Shows(i, false) <==>
            BeganLast(rows, i, true) && forall k :: !ShownLive(rows, k, now, timeout, local))
      && (view.NoHistory? <==>
            && (forall k :: !ShownLive(rows, k, now, timeout, local))
            && (forall k :: 0 <= k < |rows| ==> rows[k].status.Running?))
  {
    var latest, finished := LatestRun(rows, false), LatestRun(rows, true);
    assert latest.Some? ==> BeganLast(rows, latest.value, false);
    assert finished.Some? ==> BeganLast(rows, finished.value, true);
    assert latest.Some? && (now - rows[latest.value].heartbeatAt <= timeout || local) && rows[latest.value].status.Running?
           ==> ShownLive(rows, latest.value, now, timeout, local);
    hide LatestRun;
  }
}
