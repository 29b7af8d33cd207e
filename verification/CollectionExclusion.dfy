/**
 Who may collect, and what the history says about it (app/collectors/runner.py, app/collectors/lock.py): any number of
 processes, each with any number of threads, one thread lock per process and one advisory lock for the database.
 Every line that other threads can observe is a step of its own; any call that can raise may raise; a crash ends all
 threads of a process and frees its locks. A run is any sequence of events.
 */
module CollectionExclusion {
  import opened Wrappers
  import opened CollectionRuns

  datatype Thread = Thread(process: nat, id: nat)

  /** Where a thread is in `run`. */
  datatype Phase =
    | Outside
    | Holding                   // has the thread lock
    | Entered                   // inside `_run_locked` from here on
    | Starting(startedAt: int)  // `_running_since` is set, nothing committed yet
    | Working(row: nat)
    | Failing(row: nat)         // about to record the error
    | Clearing                  // about to reset `_running_since`
    | Unlocking                 // outside again: about to give the advisory lock back
    | Dropping                  // about to give the thread lock back

  datatype System = System(
    postgres: bool,
    processes: nat,
    timeout: int,
    clock: int,
    phases: map<Thread, Phase>,
    threadLocks: map<nat, Option<Thread>>,
    advisory: Option<Thread>,
    runningSince: map<nat, Option<int>>,
    rows: seq<CollectionRun>)

  datatype Event =
    | Tick(elapsed: nat)
    | Crash(process: nat)
    | Step(thread: Thread, fine: bool)  // the thread's next line; `fine` says that it does not raise
    | Beat(thread: Thread, fine: bool)  // a heartbeat between two phases of the collection

  function PhaseOf(s: System, t: Thread): Phase {
    if t in s.phases then s.phases[t] else Outside
  }

  function ThreadLock(s: System, process: nat): Option<Thread> {
    if process in s.threadLocks then s.threadLocks[process] else None
  }

  function RunningSince(s: System, process: nat): Option<int> {
    if process in s.runningSince then s.runningSince[process] else None
  }

  predicate Inside(p: Phase) {
    p.Entered? || p.Starting? || p.Working? || p.Failing? || p.Clearing?
  }

  /** Where the next line of thread `t` takes it; `fine` says that the line does not raise. */
  function NextPhase(s: System, t: Thread, fine: bool): Phase {
    match PhaseOf(s, t)
    case Outside => if ThreadLock(s, t.process).Some? then Outside else Holding
    case Holding => if !s.postgres || (fine && s.advisory.None?) then Entered else Dropping
    case Entered => Starting(s.clock)
    case Starting(_) => if fine then Working(|s.rows|) else Unlocking
    case Working(row) => if fine then Clearing else Failing(row)
    case Failing(_) => Clearing
    case Clearing => Unlocking
    case Unlocking => Dropping
    case Dropping => Outside
  }

  function ThreadLockAfter(s: System, t: Thread): Option<Thread> {
    match PhaseOf(s, t)
    case Outside => if ThreadLock(s, t.process).Some? then ThreadLock(s, t.process) else Some(t)
    case Dropping => None
    case _ => ThreadLock(s, t.process)
  }

  /** Off PostgreSQL both calls are no-ops, and so is the release of a lock that was not acquired. */
  function AdvisoryAfter(s: System, t: Thread, fine: bool): Option<Thread> {
    match PhaseOf(s, t)
    case Holding => if s.postgres && fine && s.advisory.None? then Some(t) else s.advisory
    case Unlocking => if s.advisory == Some(t) then None else s.advisory
    case _ => s.advisory
  }

  function RunningSinceAfter(s: System, t: Thread): Option<int> {
    match PhaseOf(s, t)
    case Entered => Some(s.clock)
    case Clearing => None
    case _ => RunningSince(s, t.process)
  }

  /** What the line commits; a line that raises commits nothing. */
  function RowsAfter(s: System, t: Thread, fine: bool): seq<CollectionRun> {
    if !fine then s.rows
    else
      match PhaseOf(s, t)
      case Starting(at) => Abandoned(s.rows, at - s.timeout) + [Started(at)]
      case Working(row) => if row < |s.rows| then s.rows[row := FinishedAs(s.rows[row], Success, s.clock)] else s.rows
      case Failing(row) => if row < |s.rows| then s.rows[row := FinishedAs(s.rows[row], Error, s.clock)] else s.rows
      case _ => s.rows
  }

  /** The next line of thread `t`. */
  function StepOf(s: System, t: Thread, fine: bool): System {
    s.(phases := s.phases[t := NextPhase(s, t, fine)],
       threadLocks := s.threadLocks[t.process := ThreadLockAfter(s, t)],
       advisory := AdvisoryAfter(s, t, fine),
       runningSince := s.runningSince[t.process := RunningSinceAfter(s, t)],
       rows := RowsAfter(s, t, fine))
  }

  function BeatOf(s: System, t: Thread, fine: bool): System {
    match PhaseOf(s, t)
    case Working(row) =>
      if fine && row < |s.rows| then s.(rows := s.rows[row := Beaten(s.rows[row], s.clock)])
      else s.(phases := s.phases[t := Failing(row)])
    case _ => s
  }

  function Next(s: System, e: Event): System {
    match e
    case Tick(elapsed) => s.(clock := s.clock + elapsed)
    case Crash(p) =>
      s.(phases := map t | t in s.phases && t.process != p :: s.phases[t],
         threadLocks := s.threadLocks[p := None],
         advisory := if s.advisory.Some? && s.advisory.value.process == p then None else s.advisory,
         runningSince := s.runningSince[p := None])
    case Step(t, fine) => if t.process < s.processes then StepOf(s, t, fine) else s
    case Beat(t, fine) => if t.process < s.processes then BeatOf(s, t, fine) else s
  }

  function Run(s: System, events: seq<Event>, n: nat): System
    requires n <= |events|
  {
    if n == 0 then s else Next(Run(s, events, n - 1), events[n - 1])
  }

  /** No process runs yet; whatever rows there are were left by earlier ones. */
  predicate Idle(s: System) {
    s.phases == map[] && s.threadLocks == map[] && s.advisory.None? && s.runningSince == map[]
  }

  // ----- Locks -----

  /** A thread holds the thread lock exactly between its first and its last line, and the advisory lock while inside. */
  predicate LocksOf(s: System, t: Thread) {
    && (ThreadLock(s, t.process) == Some(t) <==> !PhaseOf(s, t).Outside?)
    && (s.postgres ==> (s.advisory == Some(t) <==> Inside(PhaseOf(s, t)) || PhaseOf(s, t).Unlocking?))
    && (ThreadLock(s, t.process).Some? ==> ThreadLock(s, t.process).value.process == t.process)
    && (!PhaseOf(s, t).Outside? ==> t.process < s.processes)
  }

  ghost predicate Locked(s: System) {
    && (forall t :: LocksOf(s, t))
    && (!s.postgres ==> s.advisory.None?)
  }

  /** The moving thread takes and gives back its locks as its phase demands. */
  lemma {:induction false} MoverLocks(s: System, t: Thread, fine: bool)
    requires LocksOf(s, t) && t.process < s.processes && (!s.postgres ==> s.advisory.None?)
    ensures LocksOf(StepOf(s, t, fine), t)
    ensures !s.postgres ==> StepOf(s, t, fine).advisory.None?
    ensures StepOf(s, t, fine).postgres == s.postgres
  {
  }

  /** Another thread's step leaves the locks of `t` alone. */
  lemma {:induction false} OtherLocks(s: System, t: Thread, u: Thread, fine: bool)
    requires LocksOf(s, t) && LocksOf(s, u) && t != u
    ensures LocksOf(StepOf(s, u, fine), t)
  {
  }

  lemma {:induction false} NextLocks(s: System, e: Event, t: Thread)
    requires Locked(s)
    ensures LocksOf(Next(s, e), t)
  {
    hide StepOf;
    assert LocksOf(s, t);
    if e.Step? {
      assert LocksOf(s, e.thread);
      if e.thread.process < s.processes {
        if e.thread == t {
          MoverLocks(s, t, e.fine);
        } else {
          OtherLocks(s, t, e.thread, e.fine);
        }
      }
    }
  }

  lemma {:induction false} NextLocked(s: System, e: Event)
    requires Locked(s)
    ensures Locked(Next(s, e))
  {
    hide LocksOf, StepOf;
    forall t
      ensures LocksOf(Next(s, e), t)
    {
      NextLocks(s, e, t);
    }
    if e.Step? && e.thread.process < s.processes {
      assert LocksOf(s, e.thread);
      MoverLocks(s, e.thread, e.fine);
    }
  }

  lemma {:induction false} RunLocked(s: System, events: seq<Event>, n: nat)
    requires Idle(s) && n <= |events|
    ensures Locked(Run(s, events, n))
  {
    hide Next;
    if n > 0 {
      hide Locked;
      RunLocked(s, events, n - 1);
      NextLocked(Run(s, events, n - 1), events[n - 1]);
    }
  }

  /** Mutual exclusion: with the advisory lock among all threads, without it among those of a process. */
  lemma {:induction false} AtMostOneInside(s: System, events: seq<Event>, n: nat, t: Thread, u: Thread)
    requires Idle(s) && n <= |events|
    requires Inside(PhaseOf(Run(s, events, n), t)) && Inside(PhaseOf(Run(s, events, n), u))
    ensures Run(s, events, n).postgres || t.process == u.process ==> t == u
  {
    RunLocked(s, events, n);
    var now := Run(s, events, n);
    assert LocksOf(now, t) && LocksOf(now, u);
  }

  /** Lines left until the thread is out again, at most. */
  function LinesLeft(p: Phase): nat {
    match p
    case Outside => 0
    case Dropping => 1
    case Unlocking => 2
    case Clearing => 3
    case Failing(_) => 4
    case Working(_) => 5
    case Starting(_) => 6
    case Entered => 7
    case Holding => 8
  }

  /** Thread `t` runs on by itself until it is out; `outcomes` tell which of its lines raise. */
  function Leave(s: System, t: Thread, outcomes: seq<bool>): System
    decreases |outcomes|
  {
    if PhaseOf(s, t).Outside? || outcomes == [] then s else Leave(StepOf(s, t, outcomes[0]), t, outcomes[1..])
  }

  /** Every exit, whatever raises on the way, ends outside with both locks given back. */
  lemma {:induction false} ExitFreesLocks(s: System, t: Thread, outcomes: seq<bool>)
    requires Locked(s) && t.process < s.processes && LinesLeft(PhaseOf(s, t)) <= |outcomes|
    ensures Locked(Leave(s, t, outcomes)) && PhaseOf(Leave(s, t, outcomes), t).Outside?
    ensures ThreadLock(Leave(s, t, outcomes), t.process) != Some(t)
    ensures s.postgres ==> Leave(s, t, outcomes).advisory != Some(t)
    decreases |outcomes|
  {
    assert LocksOf(s, t);
    if !PhaseOf(s, t).Outside? {
      NextLocked(s, Step(t, outcomes[0]));
      LinesRunOut(s, t, outcomes[0]);
      hide StepOf, Locked, LinesLeft, LocksOf;
      ExitFreesLocks(StepOf(s, t, outcomes[0]), t, outcomes[1..]);
    }
  }

  lemma {:induction false} LinesRunOut(s: System, t: Thread, fine: bool)
    requires !PhaseOf(s, t).Outside?
    ensures LinesLeft(PhaseOf(StepOf(s, t, fine), t)) < LinesLeft(PhaseOf(s, t))
    ensures StepOf(s, t, fine).processes == s.processes && StepOf(s, t, fine).postgres == s.postgres
  {
  }

  /** A crash frees the locks of its process, and whoever finds nobody in `run` finds the locks free. */
  lemma {:induction false} LocksAreAcquirable(s: System, p: nat)
    requires Locked(s)
    ensures (forall t: Thread :: t.process == p ==> PhaseOf(s, t).Outside?) ==> ThreadLock(s, p).None?
    ensures s.postgres && (forall t :: PhaseOf(s, t).Outside?) ==> s.advisory.None?
    ensures ThreadLock(Next(s, Crash(p)), p).None?
    ensures Next(s, Crash(p)).advisory.Some? ==> Next(s, Crash(p)).advisory.value.process != p
    ensures RunningSince(Next(s, Crash(p)), p).None? && forall t: Thread :: t.process == p ==> PhaseOf(Next(s, Crash(p)), t).Outside?
  {
    assert LocksOf(s, Thread(p, 0));
    if ThreadLock(s, p).Some? {
      assert LocksOf(s, ThreadLock(s, p).value);
    }
    if s.advisory.Some? {
      assert LocksOf(s, s.advisory.value);
    }
  }

  // ----- `_running_since` -----

  /** `_running_since` is set. */
  predicate Announced(p: Phase) {
    p.Starting? || p.Working? || p.Failing? || p.Clearing?
  }

  predicate SinceOf(s: System, t: Thread) {
    Announced(PhaseOf(s, t)) ==> RunningSince(s, t.process).Some?
  }

  lemma {:induction false} NextSince(s: System, e: Event, t: Thread)
    requires Locked(s) && SinceOf(s, t)
    ensures SinceOf(Next(s, e), t)
  {
    hide RowsAfter, AdvisoryAfter;
    assert LocksOf(s, t);
    if e.Step? {
      assert LocksOf(s, e.thread);
    }
  }

  lemma {:induction false} RunSince(s: System, events: seq<Event>, n: nat, t: Thread)
    requires Idle(s) && n <= |events|
    ensures SinceOf(Run(s, events, n), t)
  {
    hide Next, SinceOf;
    if n == 0 {
      IdleSince(s, t);
    } else {
      RunSince(s, events, n - 1, t);
      RunLocked(s, events, n - 1);
      NextSince(Run(s, events, n - 1), events[n - 1], t);
    }
  }

  lemma IdleSince(s: System, t: Thread)
    requires Idle(s)
    ensures SinceOf(s, t)
  {
  }

  /**
   A collection that ends leaves `_running_since` set exactly when it ended because its setup (abandoning old rows,
   inserting its own, the first commit) raised.
   */
  lemma {:induction false} StaysAnnouncedIffSetupFails(s: System, events: seq<Event>, n: nat, t: Thread, fine: bool)
    requires Idle(s) && n <= |events|
    requires Announced(PhaseOf(Run(s, events, n), t))
    requires !Announced(PhaseOf(Next(Run(s, events, n), Step(t, fine)), t))
    ensures RunningSince(Next(Run(s, events, n), Step(t, fine)), t.process).Some? <==> PhaseOf(Run(s, events, n), t).Starting?
  {
    hide RowsAfter, AdvisoryAfter, Idle, Run;
    RunSince(s, events, n, t);
  }
}
