/** What every run of the onboarding protocol keeps. */
module OnboardingSafety {
  import opened OnboardingRow
  import opened OnboardingJob

  /** One event moves at most one worker, and a new one starts afresh. */
  lemma {:induction false} WorkerMoves(s: System, e: Event, i: nat)
    requires Sound(s) && InRange(s)
    ensures |s.workers| <= |Next(s, e).workers| <= |s.workers| + 1
    ensures i < |s.workers| ==>
              Next(s, e).workers[i] ==
              if e.Work? && e.id == i then WorkerStep(s.row, s.workers[i], e.reply).worker else s.workers[i]
    ensures |s.workers| == i < |Next(s, e).workers| ==> Next(s, e).workers[i] == NEW_WORKER
  {
  }

  // ----- The cancel flag -----

  /** The event commits a retry. */
  predicate CommitsRetry(s: System, e: Event) {
    e.Serve? && e.id < |s.requests| && s.requests[e.id].Committing? && s.requests[e.id].kind.RetryJob?
  }

  /** Nothing but the commit of a retry that had read the flag clears it. */
  lemma {:induction false} OnlyRetryClearsFlag(s: System, e: Event)
    requires InRange(s) && Sound(s) && s.row.cancelRequested
    ensures !Next(s, e).row.cancelRequested <==> CommitsRetry(s, e) && s.requests[e.id].seen.cancelRequested
  {
  }

  /** The commit of a cancel or of a removal leaves the flag set, unless it had read it set and it is set no more. */
  lemma {:induction false} CancelSetsFlag(s: System, e: Event)
    requires InRange(s) && Sound(s)
    requires e.Serve? && e.id < |s.requests| && s.requests[e.id].Committing?
    requires s.requests[e.id].kind.CancelJob? || s.requests[e.id].kind.RemoveServer?
    ensures Next(s, e).row.cancelRequested <==> s.row.cancelRequested || !s.requests[e.id].seen.cancelRequested
  {
  }

  /** The flag is set in the first `n` states and in the one after. */
  ghost predicate FlagHeld(s: System, events: seq<Event>, n: nat)
    requires InRange(s) && Sound(s) && n <= |events|
  {
    forall k :: 0 <= k <= n ==> Run(s, events, k).row.cancelRequested
  }

  /** Once set, the flag stays until a retry commits. */
  lemma {:induction false} FlagStaysUntilRetry(s: System, events: seq<Event>, n: nat)
    requires InRange(s) && Sound(s) && n <= |events| && s.row.cancelRequested
    requires forall k :: 0 <= k < n ==> !CommitsRetry(Run(s, events, k), events[k])
    ensures FlagHeld(s, events, n)
  {
    hide Next, CommitsRetry;
    if n > 0 {
      FlagStaysUntilRetry(s, events, n - 1);
      OnlyRetryClearsFlag(Run(s, events, n - 1), events[n - 1]);
    }
  }

  // ----- Bounded reaction to a cancel -----

  /** Scripts on the straight line from `pc` to the next place that looks at the flag. */
  function ScriptsFrom(pc: nat): nat
    requires pc <= COMPLETE
    decreases COMPLETE - pc
  {
    match Program(pc)
    case Remote(call) =>
      (if call.InstallOrUpdate? || call.Firewall? then 1 else 0) + (if pc < COMPLETE then ScriptsFrom(pc + 1) else 0)
    case Require(_) => if pc < COMPLETE then ScriptsFrom(pc + 1) else 0
    case _ => 0
  }

  function ScriptsLeft(w: Worker): nat
    requires w.pc <= COMPLETE
  {
    match w.stage
    case Ready => ScriptsFrom(w.pc)
    case Storing(_) => if w.pc < COMPLETE then ScriptsFrom(w.pc + 1) else 0
    case _ => 0
  }

  function WritesLeft(w: Worker): nat {
    match w.stage
    case Storing(_) => 2
    case Done(_) => 0
    case _ => 1
  }

  lemma {:induction false} AtMostOneScript(pc: nat)
    requires pc <= COMPLETE
    ensures ScriptsFrom(pc) <= 1
    decreases COMPLETE - pc
  {
  }

  /** Not yet connected, and no transition under way. */
  predicate NotBegun(w: Worker) {
    w.pc <= 1 && !w.connected && w.scripts == 0 && !w.stage.Storing?
  }

  /** The last look at the flag is still to come. */
  predicate BeforeLastCheckpoint(w: Worker) {
    w.pc <= LAST_CHECKPOINT && w.stage != Done(Completes)
  }

  /** A remote call is paid from the scripts that were left. */
  lemma {:induction false} CallIsPaid(w: Worker, call: Call, reply: Reply)
    requires WellFormed(w) && w.stage.Ready? && Program(w.pc) == Remote(call) && w.pc < COMPLETE
    ensures
      var w' := AfterCall(w, call, reply);
      && w'.pc <= COMPLETE
      && w'.scripts + ScriptsLeft(w') <= w.scripts + ScriptsLeft(w)
      && w'.writes == w.writes && (w'.stage.Ready? || w'.stage.Failing?) && w'.pc <= w.pc + 1
  {
    hide Program, Evidence, Answering, AfterCall;
    CallEffect(w, call, reply);
  }

  lemma {:induction false} ReadyFlaggedStep(row: Row, w: Worker, reply: Reply)
    requires WellFormed(w) && row.cancelRequested
    requires w.stage.Ready?
    ensures
      var w' := WorkerStep(row, w, reply).worker;
      && w'.pc <= COMPLETE
      && w'.scripts + ScriptsLeft(w') <= w.scripts + ScriptsLeft(w)
      && w'.writes + WritesLeft(w') <= w.writes + WritesLeft(w)
      && (NotBegun(w) ==> NotBegun(w'))
      && (BeforeLastCheckpoint(w) ==> BeforeLastCheckpoint(w'))
  {
    hide AfterCall, StartTransition, Program, Finished, FailedWith, Merge, Evidence, Answering, AlreadySettled, ScriptsFrom;
    ScriptsStop(w.pc);
    ScriptsStop(1);
    ProgramShape(w.pc);
    FlagLooks();
    if Program(w.pc).Remote? {
      CallIsPaid(w, Program(w.pc).call, reply);
    }
    if Program(w.pc).Enter? {
      FlagStopsTransition(row, w, Program(w.pc).step, !Program(w.pc).checked || w.ok);
    }
  }

  /** With the flag set, every step of a worker is paid from what it had left. */
  lemma {:induction false} FlaggedStep(row: Row, w: Worker, reply: Reply)
    requires WellFormed(w) && row.cancelRequested
    ensures
      var w' := WorkerStep(row, w, reply).worker;
      && w'.pc <= COMPLETE
      && w'.scripts + ScriptsLeft(w') <= w.scripts + ScriptsLeft(w)
      && w'.writes + WritesLeft(w') <= w.writes + WritesLeft(w)
      && (NotBegun(w) ==> NotBegun(w'))
      && (BeforeLastCheckpoint(w) ==> BeforeLastCheckpoint(w'))
  {
    hide ReadyStep, Program, Finished, FailedWith, Merge, Evidence, Answering, AlreadySettled, ScriptsFrom;
    ProgramShape(w.pc);
    FlagLooks();
    if w.stage.Ready? {
      ReadyFlaggedStep(row, w, reply);
    }
  }

  lemma FlagStopsTransition(row: Row, w: Worker, step: Step, success: bool)
    requires row.cancelRequested
    ensures
      var w' := StartTransition(row, w, step, success);
      w'.stage.Failing? && w' == w.(seen := row, stage := w'.stage)
  {
  }

  lemma {:induction false} ScriptsStop(pc: nat)
    requires pc <= COMPLETE
    ensures !Program(pc).Remote? && !Program(pc).Require? ==> ScriptsFrom(pc) == 0
    ensures Program(pc).Require? && pc < COMPLETE ==> ScriptsFrom(pc) == ScriptsFrom(pc + 1)
  {
  }

  /** The first transition and the last checkpoint stand where the two predicates expect them. */
  lemma FlagLooks()
    ensures Program(1).Enter? && Program(LAST_CHECKPOINT).Checkpoint?
  {
  }

  /** What worker `i` may still do, measured between two states of a run. */
  ghost predicate Within(w: Worker, w': Worker)
    requires w.pc <= COMPLETE && w'.pc <= COMPLETE
  {
    && w'.scripts + ScriptsLeft(w') <= w.scripts + ScriptsLeft(w)
    && w'.writes + WritesLeft(w') <= w.writes + WritesLeft(w)
    && (NotBegun(w) ==> NotBegun(w'))
    && (BeforeLastCheckpoint(w) ==> BeforeLastCheckpoint(w'))
  }

  lemma {:induction false} FlaggedRun(s: System, events: seq<Event>, m: nat, n: nat, i: nat)
    requires InRange(s) && Sound(s) && m <= n <= |events| && FlagHeld(s, events, n)
    requires i < |Run(s, events, m).workers|
    ensures i < |Run(s, events, n).workers|
    ensures Within(Run(s, events, m).workers[i], Run(s, events, n).workers[i])
    decreases n
  {
    hide Next, WorkerStep, ScriptsLeft, WritesLeft, NotBegun, BeforeLastCheckpoint, WellFormed;
    if m < n {
      FlaggedRun(s, events, m, n - 1, i);
      var before, e := Run(s, events, n - 1), events[n - 1];
      WorkerMoves(before, e, i);
      if e.Work? {
        FlaggedStep(before.row, before.workers[i], e.reply);
      }
    }
  }

  /**
   Bounded reaction: while the cancel flag stays set, a worker starts at most one more script and commits at most two
   more writes; if its last checkpoint is still ahead it never completes; if it had not begun it never connects.
   */
  lemma {:induction false} CancelBoundsReaction(s: System, events: seq<Event>, n: nat, i: nat)
    requires InRange(s) && Sound(s) && n <= |events| && i < |s.workers|
    requires s.row.cancelRequested
    requires forall k :: 0 <= k < n ==> !CommitsRetry(Run(s, events, k), events[k])
    ensures i < |Run(s, events, n).workers|
    ensures
      var w, w' := s.workers[i], Run(s, events, n).workers[i];
      && w'.scripts <= w.scripts + 1
      && w'.writes <= w.writes + 2
      && (BeforeLastCheckpoint(w) ==> w'.stage != Done(Completes))
      && (NotBegun(w) ==> !w'.connected && w'.scripts == 0)
  {
    hide Next, CommitsRetry, WellFormed;
    FlagStaysUntilRetry(s, events, n);
    FlaggedRun(s, events, 0, n, i);
    var w := s.workers[i];
    if w.stage.Ready? || w.pc == COMPLETE {
      AtMostOneScript(w.pc);
    } else {
      AtMostOneScript(w.pc + 1);
    }
  }

  /** A worker that comes into being while the flag is set connects to nothing, runs nothing and never completes. */
  lemma {:induction false} LateWorkersStayIdle(s: System, events: seq<Event>, m: nat, n: nat, i: nat)
    requires InRange(s) && Sound(s) && m < n <= |events| && FlagHeld(s, events, n)
    requires |Run(s, events, m).workers| == i < |Run(s, events, m + 1).workers|
    ensures i < |Run(s, events, n).workers|
    ensures
      var w := Run(s, events, n).workers[i];
      !w.connected && w.scripts == 0 && w.writes <= 1 && w.stage != Done(Completes)
  {
    hide Next, WellFormed;
    WorkerMoves(Run(s, events, m), events[m], i);
    FlaggedRun(s, events, m + 1, n, i);
  }

  /** A cancel request that reads and commits without interference. */
  lemma {:induction false} CancelCommits(s: System)
    requires InRange(s) && Sound(s) && !Terminal(s.row.status)
    ensures
      var r := |s.requests|;
      var read := Next(Next(s, Arrive(CancelJob)), Serve(r, false));
      && InRange(read)
      && Next(read, Serve(r, false)) == s.(row := CancelledBy(s.row), requests := s.requests + [Answered])
  {
  }

  /** A worker that is about to store the installation step when the cancel commits. */
  ghost predicate AboutToInstall(s: System, w: Worker) {
    && w.pc == 8 && !w.ok && s.row == w.seen && s.row.status == Running(Discovering) && !s.row.cancelRequested
    && w.stage == Storing(Entered(w.seen, InstallingExporter, false))
  }

  /** The four steps of that worker after the cancel. */
  lemma {:induction false} InstallsOnceMore(row: Row, w: Worker, stored: Moved, ran: Moved, looked: Moved, end: Moved)
    requires w.pc == 8 && !w.ok && w.seen.status == Running(Discovering) && !w.seen.cancelRequested
    requires w.stage == Storing(Entered(w.seen, InstallingExporter, false)) && row == CancelledBy(w.seen)
    requires stored == WorkerStep(row, w, Answer(true, true))
    requires stored.worker.pc <= COMPLETE && ran == WorkerStep(stored.row, stored.worker, Answer(true, true))
    requires ran.worker.pc <= COMPLETE && looked == WorkerStep(ran.row, ran.worker, Answer(true, true))
    requires looked.worker.pc <= COMPLETE && end == WorkerStep(looked.row, looked.worker, Answer(true, true))
    ensures end.worker.scripts == w.scripts + 1 && end.worker.writes == w.writes + 2
    ensures end.row.status.RollbackRequired? && end.row.cancelRequested
  {
    assert Program(9) == Remote(InstallOrUpdate) && Program(10) == Checkpoint;
    hide Program;
  }

  /**
   The bound is reached, and the text status does not survive: a cancel that commits while a worker is about to store
   the installation step lets it store, start the installer and write `rollback_required` over `cancelled`.
   */
  lemma {:induction false} BoundIsReached(s: System, i: nat)
    requires InRange(s) && Sound(s) && i < |s.workers| && AboutToInstall(s, s.workers[i])
    ensures
      var r := |s.requests|;
      var yes := Answer(true, true);
      var events := [Arrive(CancelJob), Serve(r, false), Serve(r, false),
                     Work(i, yes), Work(i, yes), Work(i, yes), Work(i, yes)];
      var cancelled, end := Run(s, events, 3), Run(s, events, 7);
      && cancelled.row.status.Cancelled? && cancelled.row.cancelRequested
      && i < |end.workers|
      && end.workers[i].scripts == s.workers[i].scripts + 1
      && end.workers[i].writes == s.workers[i].writes + 2
      && end.row.status.RollbackRequired? && end.row.cancelRequested
  {
    var r, w := |s.requests|, s.workers[i];
    var yes := Answer(true, true);
    var events := [Arrive(CancelJob), Serve(r, false), Serve(r, false),
                   Work(i, yes), Work(i, yes), Work(i, yes), Work(i, yes)];
    hide WorkerStep, RequestStep, Program, Sound, Merge;
    CancelCommits(s);
    assert Run(s, events, 1) == Next(s, events[0]);
    assert Run(s, events, 2) == Next(Run(s, events, 1), events[1]);
    var s3, s4, s5, s6, s7 := Run(s, events, 3), Run(s, events, 4), Run(s, events, 5), Run(s, events, 6), Run(s, events, 7);
    assert s3 == Next(Run(s, events, 2), events[2]);
    assert s4 == Next(s3, events[3]);
    assert s5 == Next(s4, events[4]);
    assert s6 == Next(s5, events[5]);
    assert s7 == Next(s6, events[6]);
    InstallsOnceMore(s3.row, w, Moved(s4.row, s4.workers[i]), Moved(s5.row, s5.workers[i]), Moved(s6.row, s6.workers[i]),
                     Moved(s7.row, s7.workers[i]));
  }

  /** Eleven good answers and, between them, no exporter. */
  function Approach(): seq<Event> {
    var yes, no := Work(0, Answer(true, true)), Work(0, Answer(false, true));
    [yes, yes, yes, yes, yes, yes, yes, yes, yes, yes, no, yes]
  }

  lemma {:induction false} ApproachBegins()
    ensures InRange(START) && Sound(START)
    ensures
      var row := Entered(Entered(CREATED, Connecting, true), Authenticating, true);
      Run(START, Approach(), 6) ==
      START.(row := row, workers := [Worker(4, Ready, row, false, false, {} + {Connect}, true, 0, 2)])
  {
    hide WellFormed, RequestStep, UndoStep, FailStep;
    StartIsSound();
    var events := Approach();
    var row := Entered(CREATED, Connecting, true);
    assert Run(START, events, 0) == START;
    var w := NEW_WORKER.(pc := 1);
    assert Run(START, events, 1) == START.(workers := [w]);
    w := w.(stage := Storing(row));
    assert Run(START, events, 2) == START.(workers := [w]);
    w := w.(stage := Ready, seen := row, pc := 2, writes := 1);
    assert Run(START, events, 3) == START.(row := row, workers := [w]);
    w := w.(pc := 3, connected := true, passed := w.passed + {Connect});
    assert Run(START, events, 4) == START.(row := row, workers := [w]);
    w := w.(stage := Storing(Entered(row, Authenticating, true)));
    assert Run(START, events, 5) == START.(row := row, workers := [w]);
  }

  lemma {:induction false} ApproachGoesOn()
    ensures InRange(START) && Sound(START)
    ensures
      var before := Entered(Entered(CREATED, Connecting, true), Authenticating, true);
      var row := Entered(before, Discovering, true);
      Run(START, Approach(), 9) ==
      START.(row := before,
             workers := [Worker(6, Storing(row), before, false, false, {} + {Connect} + {Precheck}, true, 0, 2)])
  {
    hide WellFormed, RequestStep, UndoStep, FailStep;
    ApproachBegins();
    var events := Approach();
    var before := Entered(Entered(CREATED, Connecting, true), Authenticating, true);
    var w := Worker(5, Ready, before, false, false, {} + {Connect}, true, 0, 2);
    assert Run(START, events, 7) == START.(row := before, workers := [w]);
    w := w.(pc := 6, passed := w.passed + {Precheck});
    assert Run(START, events, 8) == START.(row := before, workers := [w]);
  }

  /** Such a worker is reached from the start. */
  lemma {:induction false} AboutToInstallHappens()
    ensures InRange(START) && Sound(START)
    ensures |Run(START, Approach(), 12).workers| == 1
    ensures AboutToInstall(Run(START, Approach(), 12), Run(START, Approach(), 12).workers[0])
  {
    hide WellFormed, RequestStep, UndoStep, FailStep;
    ApproachGoesOn();
    var events := Approach();
    var row := Entered(Entered(Entered(CREATED, Connecting, true), Authenticating, true), Discovering, true);
    var w := Worker(7, Ready, row, false, false, {} + {Connect} + {Precheck}, true, 0, 3);
    assert Run(START, events, 10) == START.(row := row, workers := [w]);
    w := w.(pc := 8, passed := w.passed + {CheckExporter});
    assert Run(START, events, 11) == START.(row := row, workers := [w]);
  }
}
