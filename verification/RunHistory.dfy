/** What the rows of `collection_runs` keep over every run of the exclusion protocol. */
module RunHistory {
  import opened Wrappers
  import opened CollectionRuns
  import opened CollectionExclusion

  /** The instants of a row are in order, and it is finished, at its last heartbeat, exactly when it is not running. */
  predicate RowSound(run: CollectionRun, clock: int) {
    && run.startedAt <= run.heartbeatAt <= clock
    && run.finishedAt == if run.status.Running? then None else Some(run.heartbeatAt)
  }

  ghost predicate Chronological(rows: seq<CollectionRun>, clock: int) {
    && (forall i :: 0 <= i < |rows| ==> RowSound(rows[i], clock))
    && (forall i, j :: 0 <= i < j < |rows| ==> rows[i].startedAt <= rows[j].startedAt)
  }

  /** The row of a live collection is the last one and still running. */
  predicate LiveRow(rows: seq<CollectionRun>, row: nat) {
    row + 1 == |rows| && rows[row].status.Running?
  }

  ghost predicate OwnRow(s: System, t: Thread) {
    match PhaseOf(s, t)
    case Starting(at) => at <= s.clock && forall i :: 0 <= i < |s.rows| ==> s.rows[i].startedAt <= at
    case Working(row) => LiveRow(s.rows, row)
    case Failing(row) => LiveRow(s.rows, row)
    case _ => true
  }

  /** Collections exclude one another: through the advisory lock, or because there is a single process. */
  predicate Exclusive(s: System) {
    s.postgres || s.processes <= 1
  }

  /** Before any process runs, over a table that earlier processes left in order. */
  ghost predicate Starts(s: System) {
    Idle(s) && Chronological(s.rows, s.clock)
  }

  ghost predicate History(s: System) {
    && Locked(s) && Exclusive(s) && Chronological(s.rows, s.clock)
    && (forall t :: OwnRow(s, t))
  }

  // ----- One event -----

  lemma {:induction false} OneInside(s: System, t: Thread, u: Thread)
    requires Locked(s) && Exclusive(s) && Inside(PhaseOf(s, t)) && Inside(PhaseOf(s, u))
    ensures t == u
  {
    assert LocksOf(s, t) && LocksOf(s, u);
  }

  /** A line of the only thread inside keeps the rows in order. */
  lemma {:induction false} MoverKeepsOrder(s: System, t: Thread, fine: bool)
    requires Chronological(s.rows, s.clock) && OwnRow(s, t)
    ensures Chronological(RowsAfter(s, t, fine), s.clock)
  {
  }

  lemma {:induction false} MoverOwns(s: System, t: Thread, fine: bool)
    requires Chronological(s.rows, s.clock) && OwnRow(s, t)
    ensures OwnRow(StepOf(s, t, fine), t)
  {
  }

  /** A thread that is not inside commits nothing. */
  lemma {:induction false} OnlyInsideWrites(s: System, t: Thread, fine: bool)
    requires !Inside(PhaseOf(s, t))
    ensures RowsAfter(s, t, fine) == s.rows
  {
  }

  lemma {:induction false} OthersOwn(s: System, t: Thread, u: Thread, fine: bool)
    requires Locked(s) && Exclusive(s) && OwnRow(s, u) && t != u
    ensures OwnRow(StepOf(s, t, fine), u)
  {
    hide ThreadLockAfter, AdvisoryAfter, RunningSinceAfter, RowsAfter, NextPhase, Locked, LiveRow;
    if Inside(PhaseOf(s, u)) {
      if Inside(PhaseOf(s, t)) {
        OneInside(s, t, u);
      } else {
        OnlyInsideWrites(s, t, fine);
      }
    }
  }

  lemma {:induction false} NextHistory(s: System, e: Event)
    requires History(s)
    ensures History(Next(s, e))
  {
    NextLocked(s, e);
    hide Locked;
    match e {
      case Tick(_) => TickHistory(s, e);
      case Crash(_) => CrashHistory(s, e);
      case Step(t, fine) => if t.process < s.processes { StepHistory(s, t, fine); }
      case Beat(t, fine) => if t.process < s.processes { BeatHistory(s, t, fine); }
    }
  }

  lemma {:induction false} TickHistory(s: System, e: Event)
    requires History(s) && e.Tick?
    ensures Chronological(Next(s, e).rows, Next(s, e).clock) && forall t :: OwnRow(Next(s, e), t)
  {
    hide Locked;
    forall t
      ensures OwnRow(Next(s, e), t)
    {
      assert OwnRow(s, t);
    }
  }

  lemma {:induction false} CrashHistory(s: System, e: Event)
    requires History(s) && e.Crash?
    ensures Chronological(Next(s, e).rows, Next(s, e).clock) && forall t :: OwnRow(Next(s, e), t)
  {
    hide Locked, Chronological;
    forall t
      ensures OwnRow(Next(s, e), t)
    {
      assert OwnRow(s, t);
    }
  }

  lemma {:induction false} StepHistory(s: System, t: Thread, fine: bool)
    requires History(s)
    ensures Chronological(StepOf(s, t, fine).rows, StepOf(s, t, fine).clock) && forall u :: OwnRow(StepOf(s, t, fine), u)
  {
    hide Locked, Chronological, RowsAfter, NextPhase, ThreadLockAfter, AdvisoryAfter, RunningSinceAfter;
    assert OwnRow(s, t);
    MoverKeepsOrder(s, t, fine);
    forall u
      ensures OwnRow(StepOf(s, t, fine), u)
    {
      assert OwnRow(s, u);
      if u == t {
        MoverOwns(s, t, fine);
      } else {
        OthersOwn(s, t, u, fine);
      }
    }
  }

  lemma {:induction false} BeatHistory(s: System, t: Thread, fine: bool)
    requires History(s)
    ensures Chronological(BeatOf(s, t, fine).rows, BeatOf(s, t, fine).clock) && forall u :: OwnRow(BeatOf(s, t, fine), u)
  {
    hide Locked;
    assert OwnRow(s, t);
    forall u
      ensures OwnRow(BeatOf(s, t, fine), u)
    {
      assert OwnRow(s, u);
      if u != t && Inside(PhaseOf(s, u)) && Inside(PhaseOf(s, t)) {
        OneInside(s, t, u);
      }
    }
  }

  // ----- Over runs -----

  lemma {:induction false} HistoryHolds(s: System, events: seq<Event>, n: nat)
    requires Starts(s) && Exclusive(s) && n <= |events|
    ensures History(Run(s, events, n))
  {
    hide Next;
    if n > 0 {
      hide History, Starts;
      HistoryHolds(s, events, n - 1);
      NextHistory(Run(s, events, n - 1), events[n - 1]);
    }
  }

  /** In every reachable state the instants of a row are in order; a finished row finished at its last heartbeat. */
  lemma {:induction false} InstantsAreOrdered(s: System, events: seq<Event>, n: nat, i: nat)
    requires Starts(s) && Exclusive(s) && n <= |events| && i < |Run(s, events, n).rows|
    ensures
      var run := Run(s, events, n).rows[i];
      && run.startedAt <= run.heartbeatAt
      && (run.status.Running? <==> run.finishedAt.None?)
      && (run.finishedAt.Some? ==> run.finishedAt.value == run.heartbeatAt)
  {
    hide Run, Locked;
    HistoryHolds(s, events, n);
    assert RowSound(Run(s, events, n).rows[i], Run(s, events, n).clock);
  }

  /** A row that has left `running` never changes again. */
  lemma {:induction false} FinishedRowStays(s: System, e: Event, i: nat)
    requires History(s) && i < |s.rows| && !s.rows[i].status.Running?
    ensures i < |Next(s, e).rows| && Next(s, e).rows[i] == s.rows[i]
  {
    hide Locked, Chronological, ThreadLockAfter, AdvisoryAfter, RunningSinceAfter, NextPhase;
    if e.Step? || e.Beat? {
      assert OwnRow(s, e.thread);
    }
  }

  /** Rows leave `running` at most once: what is finished after `m` events is the same after `n`. */
  lemma {:induction false} RowsMoveOnce(s: System, events: seq<Event>, m: nat, n: nat, i: nat)
    requires Starts(s) && Exclusive(s) && m <= n <= |events|
    requires i < |Run(s, events, m).rows| && !Run(s, events, m).rows[i].status.Running?
    ensures i < |Run(s, events, n).rows| && Run(s, events, n).rows[i] == Run(s, events, m).rows[i]
    decreases n
  {
    hide Next, History, Exclusive, Starts;
    if m < n {
      RowsMoveOnce(s, events, m, n - 1, i);
      HistoryHolds(s, events, n - 1);
      FinishedRowStays(Run(s, events, n - 1), events[n - 1], i);
    }
  }

  /** The thread is in the middle of the collection that row `i` records. */
  predicate Collects(s: System, t: Thread, i: nat) {
    PhaseOf(s, t) == Working(i) || PhaseOf(s, t) == Failing(i)
  }

  /** The row of a collection that is still going on has not been marked. */
  ghost predicate LiveRowsRun(s: System) {
    forall t, i: nat :: Collects(s, t, i) ==> i < |s.rows| && s.rows[i].status.Running?
  }

  lemma {:induction false} LiveRowsAreNeverAbandoned(s: System, events: seq<Event>, n: nat)
    requires Starts(s) && Exclusive(s) && n <= |events|
    ensures LiveRowsRun(Run(s, events, n))
  {
    hide Run, Locked, Chronological;
    HistoryHolds(s, events, n);
    var now := Run(s, events, n);
    forall t, i: nat | Collects(now, t, i)
      ensures i < |now.rows| && now.rows[i].status.Running?
    {
      assert OwnRow(now, t);
    }
  }

  /** The status endpoint describes the live collection as long as its heartbeat is fresh or its process answers. */
  lemma {:induction false} StatusShowsLiveRun(s: System, events: seq<Event>, n: nat, t: Thread, i: nat, local: bool)
    requires Starts(s) && Exclusive(s) && n <= |events| && Collects(Run(s, events, n), t, i)
    ensures
      var now := Run(s, events, n);
      && i < |now.rows|
      && (now.clock - now.rows[i].heartbeatAt <= now.timeout || local ==>
            StatusOf(now.rows, now.clock, now.timeout, local) == Shows(i, true))
  {
    hide Run, Locked;
    HistoryHolds(s, events, n);
    var now := Run(s, events, n);
    assert OwnRow(now, t);
    assert LatestRun(now.rows, false) == Some(i);
  }

  // ----- Without exclusion -----

  function Lines(s: System, t: Thread, n: nat): System {
    if n == 0 then s else Next(Lines(s, t, n - 1), Step(t, true))
  }

  /** Off PostgreSQL four undisturbed lines take a thread from outside to the middle of its collection. */
  lemma {:induction false} FourLines(s: System, t: Thread)
    requires !s.postgres && t.process < s.processes && PhaseOf(s, t).Outside? && ThreadLock(s, t.process).None?
    ensures
      var s' := Lines(s, t, 4);
      && PhaseOf(s', t) == Working(|s.rows|)
      && s'.rows == Abandoned(s.rows, s.clock - s.timeout) + [Started(s.clock)]
      && s'.postgres == s.postgres && s'.processes == s.processes && s'.clock == s.clock && s'.timeout == s.timeout
    ensures forall u :: u != t ==> PhaseOf(Lines(s, t, 4), u) == PhaseOf(s, u)
    ensures forall p :: p != t.process ==> ThreadLock(Lines(s, t, 4), p) == ThreadLock(s, p)
  {
    hide Abandoned;
    var s1 := Lines(s, t, 1);
    assert s1 == Next(s, Step(t, true)) by { assert Lines(s, t, 0) == s; }
    assert PhaseOf(s1, t) == Holding;
    var s2 := Lines(s, t, 2);
    assert PhaseOf(s2, t) == Entered;
    var s3 := Lines(s, t, 3);
    assert PhaseOf(s3, t) == Starting(s.clock);
    assert s3.rows == s.rows;
  }

  /** A run in which a second process marks the row of a live collection, whose heartbeat is overdue, as abandoned. */
  function Overtaking(s: System): seq<Event> {
    var a, b := Thread(0, 0), Thread(1, 0);
    [Step(a, true), Step(a, true), Step(a, true), Step(a, true), Tick(if s.timeout < 0 then 0 else s.timeout + 1),
     Step(b, true), Step(b, true), Step(b, true), Step(b, true)]
  }

  /** A thread of another process starts while the row of a live collection is overdue. */
  lemma {:induction false} SecondCollectorAbandons(s: System, a: Thread, b: Thread, row: nat)
    requires !s.postgres && b.process < s.processes && PhaseOf(s, b).Outside? && ThreadLock(s, b.process).None?
    requires a != b && PhaseOf(s, a) == Working(row) && row < |s.rows| && Stale(s.rows[row], s.clock - s.timeout)
    ensures !LiveRowsRun(Lines(s, b, 4))
  {
    hide Lines;
    FourLines(s, b);
    var end := Lines(s, b, 4);
    assert end.rows[row] == AbandonedRow(s.rows[row], s.clock - s.timeout);
    assert Collects(end, a, row);
  }

  lemma {:induction false} FirstCollector(s: System)
    requires Starts(s) && !Exclusive(s)
    ensures
      var a, b, late := Thread(0, 0), Thread(1, 0), Run(s, Overtaking(s), 5);
      && !late.postgres && b.process < late.processes && PhaseOf(late, b).Outside? && ThreadLock(late, b.process).None?
      && PhaseOf(late, a) == Working(|s.rows|) && |s.rows| < |late.rows|
      && Stale(late.rows[|s.rows|], late.clock - late.timeout)
  {
    hide Lines, StepOf;
    var a, b, events := Thread(0, 0), Thread(1, 0), Overtaking(s);
    FourLines(s, a);
    var mid := Lines(s, a, 4);
    RunIsLines(s, events, 0, a, 4);
    assert Run(s, events, 5) == Next(mid, events[4]);
    hide Run;
    assert PhaseOf(mid, b) == PhaseOf(s, b) && ThreadLock(mid, 1) == ThreadLock(s, 1);
  }

  lemma {:induction false} OvertakingAbandons(s: System)
    requires Starts(s) && !Exclusive(s)
    ensures !LiveRowsRun(Run(s, Overtaking(s), 9))
  {
    FirstCollector(s);
    RunIsLines(s, Overtaking(s), 5, Thread(1, 0), 4);
    hide Run, Starts, Lines, LiveRowsRun;
    SecondCollectorAbandons(Run(s, Overtaking(s), 5), Thread(0, 0), Thread(1, 0), |s.rows|);
  }

  lemma {:induction false} RunIsLines(s: System, events: seq<Event>, m: nat, t: Thread, n: nat)
    requires m + n <= |events| && forall k :: m <= k < m + n ==> events[k] == Step(t, true)
    ensures Run(s, events, m + n) == Lines(Run(s, events, m), t, n)
  {
    hide Next;
    if n > 0 {
      RunIsLines(s, events, m, t, n - 1);
    }
  }

  /** Exactly the deployments with an advisory lock or a single process protect the rows of live collections. */
  lemma {:induction false} RowsAreProtectedIffExclusive(s: System)
    requires Starts(s)
    ensures Exclusive(s) <==> forall events, n: nat :: n <= |events| ==> LiveRowsRun(Run(s, events, n))
  {
    hide LiveRowsRun, Run, Starts;
    if Exclusive(s) {
      forall events: seq<Event>, n: nat | n <= |events|
        ensures LiveRowsRun(Run(s, events, n))
      {
        LiveRowsAreNeverAbandoned(s, events, n);
      }
    } else {
      OvertakingAbandons(s);
      assert |Overtaking(s)| == 9;
    }
  }
}
