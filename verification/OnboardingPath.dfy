/** What one worker does to its job: the order of its steps, what completion proves, and how it ends. */
module OnboardingPath {
  import opened OnboardingRow
  import opened OnboardingJob
  import opened OnboardingSafety

  // ----- Completion is earned -----

  predicate LooksComplete(row: Row) {
    row.status.Completed? || row.progress == 100
  }

  ghost predicate SomeoneCompleted(s: System) {
    exists i :: 0 <= i < |s.workers| && s.workers[i].stage == Done(Completes)
  }

  lemma {:induction false} EvidenceHolds(pc: nat, k: nat, passed: set<Call>)
    requires k < pc <= COMPLETE && Evidence(pc, passed)
    ensures Owed(Program(k)).Some? ==> Owed(Program(k)).value in passed
  {
    hide Program;
    if k < pc - 1 {
      EvidenceHolds(pc - 1, k, passed);
    }
  }

  /** A worker that completed was connected and had every check of the program pass. */
  lemma {:induction false} CompletionIsEarned(w: Worker)
    requires WellFormed(w) && w.stage == Done(Completes)
    ensures {Connect, Precheck, Firewall, VerifyExporter, RegisterInventory, RequireUrl, ProbePrometheus} <= w.passed
  {
    EvidenceHolds(COMPLETE, 2, w.passed);
    EvidenceHolds(COMPLETE, 5, w.passed);
    EvidenceHolds(COMPLETE, 13, w.passed);
    EvidenceHolds(COMPLETE, 16, w.passed);
    EvidenceHolds(COMPLETE, 18, w.passed);
    EvidenceHolds(COMPLETE, 20, w.passed);
    EvidenceHolds(COMPLETE, 22, w.passed);
  }

  lemma {:induction false} StepsOfProgram(pc: nat)
    requires pc <= COMPLETE && Program(pc).Enter?
    ensures 0 < StepProgress(Program(pc).step) < 100
  {
  }

  /** Only the last line of the program makes a row look complete. */
  lemma {:induction false} OnlyWorkersComplete(s: System, e: Event)
    requires InRange(s) && Sound(s) && !LooksComplete(s.row) && LooksComplete(Next(s, e).row)
    ensures SomeoneCompleted(Next(s, e))
  {
    assert e.Work? && e.id < |s.workers| by {
      hide WorkerStep;
    }
    var w := s.workers[e.id];
    assert WellFormed(w);
    if w.stage.Storing? {
      StepsOfProgram(w.pc);
    }
    hide Program, AfterCall, StartTransition;
    assert Next(s, e).workers[e.id].stage == Done(Completes);
  }

  /** In every reachable state a row that looks complete was completed by a worker whose checks all passed. */
  lemma {:induction false} CompletedRowsAreEarned(events: seq<Event>, n: nat)
    requires n <= |events| && LooksComplete(Run(START, events, n).row)
    ensures
      exists w :: w in Run(START, events, n).workers && w.stage == Done(Completes)
                  && {Connect, Precheck, Firewall, VerifyExporter, RegisterInventory, RequireUrl, ProbePrometheus}
                     <= w.passed
  {
    hide Next, WellFormed;
    StartIsSound();
    SomeoneDid(events, n);
    var s := Run(START, events, n);
    var i :| 0 <= i < |s.workers| && s.workers[i].stage == Done(Completes);
    assert WellFormed(s.workers[i]);
    CompletionIsEarned(s.workers[i]);
  }

  lemma {:induction false} SomeoneDid(events: seq<Event>, n: nat)
    requires n <= |events| && LooksComplete(Run(START, events, n).row)
    ensures SomeoneCompleted(Run(START, events, n))
  {
    hide Next, WellFormed, LooksComplete;
    StartIsSound();
    if n == 0 {
      StartLooksPending();
    } else {
      var before, e := Run(START, events, n - 1), events[n - 1];
      if LooksComplete(before.row) {
        SomeoneDid(events, n - 1);
        var i :| 0 <= i < |before.workers| && before.workers[i].stage == Done(Completes);
        DoneStays(before, e, i);
      } else {
        OnlyWorkersComplete(before, e);
      }
    }
  }

  lemma StartLooksPending()
    ensures !LooksComplete(CREATED)
  {
  }

  lemma {:induction false} DoneStays(s: System, e: Event, i: nat)
    requires InRange(s) && Sound(s) && i < |s.workers| && s.workers[i].stage.Done?
    ensures i < |Next(s, e).workers| && Next(s, e).workers[i] == s.workers[i]
  {
  }

  // ----- One worker, no retry -----

  /** Progress and step of the last transition before `pc`. */
  function StepAt(pc: nat): Step
    requires pc <= COMPLETE
  {
    if pc == 0 then NotStarted
    else if Program(pc - 1).Enter? then Program(pc - 1).step
    else StepAt(pc - 1)
  }

  /** The step that follows a given progress in the table. */
  function StepAfter(progress: nat): Step {
    match progress
    case 0 => Connecting
    case 5 => Authenticating
    case 12 => Discovering
    case 25 => InstallingExporter
    case 45 => ConfiguringFirewall
    case 60 => VerifyingExporter
    case 70 => RegisteringInventory
    case 82 => ConfiguringMonitoring
    case 90 => Validating
    case _ => AllDone
  }

  /** The program enters the steps in the order of the table. */
  lemma {:induction false} TableOrder(pc: nat)
    requires pc <= COMPLETE
    ensures Program(pc).Enter? ==>
              && Program(pc).step == StepAfter(StepProgress(StepAt(pc)))
              && StepProgress(StepAt(pc)) < StepProgress(Program(pc).step) < 100
              && Program(pc).step != RollingBack && Program(pc).step != NotStarted
    ensures pc == COMPLETE ==> StepAt(pc) == Validating
    ensures StepAt(pc) != RollingBack
  {
    if pc > 0 && !Program(pc - 1).Enter? {
      TableOrder(pc - 1);
    }
  }

  function StepOf(w: Worker): Step
    requires w.pc <= COMPLETE
  {
    if w.stage == Done(Completes) then AllDone else StepAt(w.pc)
  }

  /** The status that goes with a step, as long as nobody has terminalised the job. */
  function StatusAt(step: Step): Status {
    if step.NotStarted? then Pending else Running(step)
  }

  predicate NoRetry(r: Request) {
    r.Answered? || !r.kind.RetryJob?
  }

  /**
   The row shows exactly how far the only worker has come, except that a rollback may have taken the name of the step
   and that anybody may have terminalised it;
   and a terminal row seen by the worker is still terminal, unless the worker is storing a step over it.
   */
  ghost predicate Tracks(row: Row, w: Worker) {
    && WellFormed(w)
    && row.progress == w.seen.progress == StepProgress(StepOf(w))
    && (row.currentStep == StepOf(w) || row.currentStep == RollingBack)
    && (w.seen.currentStep == StepOf(w) || w.seen.currentStep == RollingBack)
    && (Terminal(row.status) || row.status == StatusAt(StepOf(w)))
    && (Terminal(w.seen.status) || w.seen.status == StatusAt(StepOf(w)))
    && (!w.stage.Storing? && Terminal(w.seen.status) ==> Terminal(row.status))
    && (w.stage.Done? ==> Terminal(row.status))
  }

  ghost predicate Alone(s: System) {
    && |s.workers| == 1 && Tracks(s.row, s.workers[0])
    && (forall i :: 0 <= i < |s.requests| ==> NoRetry(s.requests[i]))
  }

  /** A worker's step moves the row to the next step of the table or leaves progress and step alone. */
  ghost predicate Advances(row: Row, row': Row) {
    || (row'.progress == row.progress && (row'.currentStep == row.currentStep || row'.currentStep == RollingBack))
    || (row'.currentStep == StepAfter(row.progress) && row'.progress == StepProgress(row'.currentStep) > row.progress)
  }

  /** Outside transitions and commits the worker only moves along the line between two steps. */
  ghost predicate Strolls(w: Worker, w': Worker) {
    && w'.seen == w.seen && w.stage.Ready?
    && ((w'.stage.Ready? && w'.pc == w.pc + 1 <= COMPLETE && !Program(w.pc).Enter?)
        || (w'.stage.Failing? && w'.pc == w.pc))
  }

  lemma {:induction false} StrollTracks(row: Row, w: Worker, w': Worker)
    requires Tracks(row, w) && WellFormed(w') && Strolls(w, w')
    ensures Tracks(row, w')
  {
  }

  /** Reading the row afresh keeps it tracked. */
  lemma {:induction false} LookTracks(row: Row, w: Worker)
    requires Tracks(row, w) && w.stage.Ready?
    ensures Tracks(row, w.(seen := row))
  {
  }

  lemma {:induction false} CallStrolls(w: Worker, call: Call, reply: Reply)
    requires w.stage.Ready? && w.pc < COMPLETE && Program(w.pc) == Remote(call)
    ensures Strolls(w, AfterCall(w, call, reply))
  {
    hide Program, AfterCall;
    CallEffect(w, call, reply);
  }

  lemma {:induction false} StoredStep(row: Row, seen: Row, step: Step, success: bool)
    requires row.progress == seen.progress && seen.currentStep != step && seen.status != Running(step)
    ensures
      var mine := Entered(seen, step, success);
      var row' := Merge(row, seen, mine);
      && row'.progress == mine.progress == StepProgress(step) && row'.currentStep == mine.currentStep == step
      && row'.status == mine.status == Running(step)
  {
  }

  lemma {:induction false} StoreTracks(row: Row, w: Worker, reply: Reply)
    requires Tracks(row, w) && w.stage.Storing?
    ensures
      var m := WorkerStep(row, w, reply);
      Tracks(m.row, m.worker) && Advances(row, m.row) && !Terminal(m.row.status)
  {
    hide Program, Evidence, Answering, AfterCall, ReadyStep, FailStep, StepAfter, StepProgress, Merge, Entered;
    TableOrder(w.pc);
    WorkerKeepsForm(row, w, reply);
    ProgramShape(w.pc);
    StoredStep(row, w.seen, Program(w.pc).step, !Program(w.pc).checked || w.ok);
  }

  lemma {:induction false} FailTracks(row: Row, w: Worker, reply: Reply)
    requires Tracks(row, w) && w.stage.Failing?
    ensures
      var m := WorkerStep(row, w, reply);
      && Tracks(m.row, m.worker) && Advances(row, m.row)
      && (m.worker.installed ==> m.row.status.RollbackRequired? || Terminal(row.status))
  {
    hide Program, ReadyStep, Evidence, Answering, StepAt, StepAfter, StepProgress;
  }

  lemma {:induction false} CompleteTracks(row: Row, w: Worker, reply: Reply)
    requires Tracks(row, w) && w.stage.Ready? && w.pc == COMPLETE
    ensures
      var m := WorkerStep(row, w, reply);
      && Tracks(m.row, m.worker) && Advances(row, m.row)
      && (m.row.status.Completed? || Terminal(row.status))
  {
    TableOrder(w.pc);
    ProgramShape(w.pc);
    WorkerKeepsForm(row, w, reply);
    hide Program, Evidence, Answering, AfterCall, FailStep;
  }

  lemma {:induction false} EnterTracks(row: Row, w: Worker, reply: Reply)
    requires Tracks(row, w) && w.stage.Ready? && Program(w.pc).Enter?
    ensures
      var m := WorkerStep(row, w, reply);
      Tracks(m.row, m.worker) && m.row == row && !m.worker.stage.Done?
  {
  }

  /** Every step of the only worker keeps the row tracked; ending after an installation, it leaves a terminal row. */
  lemma {:induction false} OwnStepTracks(row: Row, w: Worker, reply: Reply)
    requires Tracks(row, w)
    ensures
      var m := WorkerStep(row, w, reply);
      && Tracks(m.row, m.worker) && Advances(row, m.row)
      && (m.worker.stage.Done? && m.worker.installed ==>
            m.row.status.Completed? || m.row.status.RollbackRequired? || Terminal(row.status))
  {
    var m := WorkerStep(row, w, reply);
    match w.stage {
      case Storing(_) => StoreTracks(row, w, reply);
      case Failing(_) => FailTracks(row, w, reply);
      case Done(_) =>
      case Ready =>
        WorkerKeepsForm(row, w, reply);
        ProgramShape(w.pc);
        if w.pc == COMPLETE {
          CompleteTracks(row, w, reply);
        } else if Program(w.pc).Enter? {
          EnterTracks(row, w, reply);
        } else if Program(w.pc).Remote? {
          CallStrolls(w, Program(w.pc).call, reply);
          StrollTracks(row, w, m.worker);
        } else {
          LookTracks(row, w);
          if !Program(w.pc).Require? {
            StrollTracks(row, w.(seen := row), m.worker);
          } else {
            StrollTracks(row, w, m.worker);
          }
        }
    }
    hide Program, WellFormed, Tracks, AfterCall, FailStep, StepAfter, StepProgress;
  }

  // ----- Everybody else -----

  /** Requests and rollback tasks leave the progress alone, at most rename the step, and never revive a terminal row. */
  ghost predicate Minor(row: Row, row': Row) {
    && row'.progress == row.progress
    && (row'.currentStep == row.currentStep || row'.currentStep == RollingBack)
    && (row'.status == row.status || Terminal(row'.status))
  }

  lemma {:induction false} RequestsAreMinor(row: Row, r: Request, overdue: bool)
    requires NoRetry(r)
    ensures Minor(row, RequestStep(row, r, overdue).row) && NoRetry(RequestStep(row, r, overdue).request)
  {
  }

  lemma {:induction false} UndosAreMinor(row: Row, u: Rollback, reply: UndoReply)
    ensures Minor(row, UndoStep(row, u, reply).row)
  {
  }

  lemma {:induction false} MinorTracks(row: Row, row': Row, w: Worker)
    requires Tracks(row, w) && Minor(row, row')
    ensures Tracks(row', w)
  {
  }

  /** One event of a job with one worker and no retry. */
  lemma {:induction false} AloneStep(s: System, e: Event)
    requires InRange(s) && Sound(s) && Alone(s) && e != Arrive(RetryJob)
    ensures Alone(Next(s, e)) && Advances(s.row, Next(s, e).row)
    ensures s.workers[0].stage.Done? ==> Next(s, e).workers[0] == s.workers[0]
    ensures
      var w, row' := Next(s, e).workers[0], Next(s, e).row;
      w.stage.Done? && !s.workers[0].stage.Done? && w.installed ==>
        row'.status.Completed? || row'.status.RollbackRequired? || Terminal(s.row.status)
  {
    hide WorkerStep, RequestStep, UndoStep, Tracks, Sound, InRange, StepProgress, StepAfter;
    match e {
      case Work(id, reply) =>
        if id == 0 {
          if s.workers[0].stage.Done? {
            DoneStays(s, e, 0);
          }
          OwnStepTracks(s.row, s.workers[0], reply);
        }
      case Serve(id, overdue) =>
        if id < |s.requests| {
          RequestsAreMinor(s.row, s.requests[id], overdue);
          MinorTracks(s.row, Next(s, e).row, s.workers[0]);
        }
      case Undo(id, reply) =>
        if id < |s.undos| {
          UndosAreMinor(s.row, s.undos[id], reply);
          MinorTracks(s.row, Next(s, e).row, s.workers[0]);
        }
      case Arrive(_) =>
    }
  }

  /** The event is not the arrival of a retry. */
  ghost predicate NoRetryArrives(events: seq<Event>) {
    forall k :: 0 <= k < |events| ==> events[k] != Arrive(RetryJob)
  }

  lemma {:induction false} AloneInRun(events: seq<Event>, n: nat)
    requires n <= |events| && NoRetryArrives(events)
    ensures InRange(START) && Sound(START) && Alone(Run(START, events, n))
  {
    hide Next, Sound, InRange;
    StartIsSound();
    if n == 0 {
      StartIsAlone();
    } else {
      AloneInRun(events, n - 1);
      hide Alone;
      AloneStep(Run(START, events, n - 1), events[n - 1]);
    }
  }

  lemma StartIsAlone()
    ensures Alone(START)
  {
  }

  /**
   Worker path: with one worker and no retry, whatever else happens, each event leaves committed progress where it is
   or takes it to the next entry of the step table; the row always tells exactly how far the worker has come; and when
   the worker is over the row is terminal.
   */
  lemma {:induction false} PathFollowsTable(events: seq<Event>, n: nat)
    requires n < |events| && NoRetryArrives(events)
    ensures InRange(START) && Sound(START)
    ensures |Run(START, events, n).workers| == |Run(START, events, n + 1).workers| == 1
    ensures
      var row, row' := Run(START, events, n).row, Run(START, events, n + 1).row;
      && row.progress <= row'.progress
      && (row'.progress != row.progress ==>
            row'.currentStep == StepAfter(row.progress) && row'.progress == StepProgress(row'.currentStep))
    ensures
      var row, w := Run(START, events, n).row, Run(START, events, n).workers[0];
      && row.progress == StepProgress(StepOf(w))
      && (w.stage.Done? ==> Terminal(row.status))
  {
    hide Next, Sound, StepAfter, StepOf, StepProgress;
    AloneInRun(events, n);
    AloneInRun(events, n + 1);
    AloneStep(Run(START, events, n), events[n]);
  }

  /**
   Once the worker has installed the exporter, the event that ends it leaves the row completed or asking for rollback,
   or finds it already terminal; and a worker that ends without a word had seen a cancel or an expiry.
   */
  lemma {:induction false} InstalledWorkersEndWell(events: seq<Event>, n: nat)
    requires n < |events| && NoRetryArrives(events)
    ensures InRange(START) && Sound(START)
    ensures |Run(START, events, n).workers| == |Run(START, events, n + 1).workers| == 1
    ensures
      var before, after := Run(START, events, n), Run(START, events, n + 1);
      var w := after.workers[0];
      !before.workers[0].stage.Done? && w.stage.Done? && w.installed ==>
        && (w.stage.ending.Completes? || w.stage.ending == Fails(true) || AlreadySettled(w.seen))
        && (after.row.status.Completed? || after.row.status.RollbackRequired? || Terminal(before.row.status))
  {
    hide Next, InRange, Evidence, AlreadySettled, Terminal, StepOf;
    AloneInRun(events, n);
    AloneInRun(events, n + 1);
    AloneStep(Run(START, events, n), events[n]);
    assert WellFormed(Run(START, events, n + 1).workers[0]);
  }

  // ----- Expiry -----

  /** The last transition is still to come, and none is being stored. */
  ghost predicate HeldBack(w: Worker) {
    !w.stage.Storing? && w.pc <= LAST_ENTER && w.stage != Done(Completes)
  }

  /** The job is terminal and its worker has yet to pass the last transition. */
  ghost predicate Stopped(s: System) {
    Alone(s) && Terminal(s.row.status) && HeldBack(s.workers[0])
  }

  lemma {:induction false} ReadyTerminalHoldsBack(row: Row, w: Worker, reply: Reply)
    requires WellFormed(w) && HeldBack(w) && Terminal(row.status)
    requires w.stage.Ready?
    ensures HeldBack(WorkerStep(row, w, reply).worker)
    ensures WorkerStep(row, w, reply).row == row || WorkerStep(row, w, reply).worker.stage.Done?
  {
    ProgramShape(w.pc);
    assert Program(LAST_ENTER).Enter?;
    hide AfterCall, Program, WellFormed, Terminal, Merge, AlreadySettled, FailedWith;
    if Program(w.pc).Remote? {
      CallStrolls(w, Program(w.pc).call, reply);
    }
  }

  lemma {:induction false} TerminalHoldsBack(row: Row, w: Worker, reply: Reply)
    requires WellFormed(w) && HeldBack(w) && Terminal(row.status)
    ensures HeldBack(WorkerStep(row, w, reply).worker)
    ensures WorkerStep(row, w, reply).row == row || WorkerStep(row, w, reply).worker.stage.Done?
  {
    hide ReadyStep, AfterCall, Program, WellFormed, Terminal, Merge, AlreadySettled, FailedWith;
    if w.stage.Ready? {
      ReadyTerminalHoldsBack(row, w, reply);
    }
  }

  lemma {:induction false} StoppedStays(s: System, e: Event)
    requires InRange(s) && Sound(s) && Stopped(s) && e != Arrive(RetryJob)
    ensures Stopped(Next(s, e))
  {
    hide WorkerStep, HeldBack, WellFormed, StepOf, Advances;
    AloneStep(s, e);
    WorkerMoves(s, e, 0);
    if e.Work? {
      TerminalHoldsBack(s.row, s.workers[0], e.reply);
      OwnStepTracks(s.row, s.workers[0], e.reply);
    } else {
      OthersKeepTerminal(s, e);
    }
  }

  lemma {:induction false} OthersKeepTerminal(s: System, e: Event)
    requires InRange(s) && Alone(s) && !e.Work? && Terminal(s.row.status)
    ensures Terminal(Next(s, e).row.status)
  {
  }

  /**
   A cancel or an expiry that commits while the worker has its last transition still to begin, and none to store, keeps it
   from ever completing.
   */
  lemma {:induction false} TerminalBeforeLastTransitionHolds(s: System, events: seq<Event>, n: nat)
    requires InRange(s) && Sound(s) && Stopped(s) && n <= |events| && NoRetryArrives(events)
    ensures Stopped(Run(s, events, n))
  {
    hide Next, Stopped, Sound, InRange;
    if n > 0 {
      TerminalBeforeLastTransitionHolds(s, events, n - 1);
      StoppedStays(Run(s, events, n - 1), events[n - 1]);
    }
  }

  /** The last three instructions, when no cancel was asked for. */
  lemma {:induction false} LastLines(row: Row, w: Worker)
    requires w.stage.Ready? && !row.cancelRequested
    ensures w.pc == 25 ==>
              WorkerStep(row, w, Answer(true, true)) == Moved(row, w.(pc := 26, passed := w.passed + {ReadVersion}))
    ensures w.pc == 26 ==> WorkerStep(row, w, Answer(true, true)) == Moved(row, w.(seen := row, pc := 27))
    ensures w.pc == 27 && w.seen == row ==>
              WorkerStep(row, w, Answer(true, true)) ==
              Moved(Finished(row), w.(seen := Finished(row), stage := Done(Completes), writes := w.writes + 1))
  {
  }

  /** One that commits behind the last transition stops nothing: only the flag is looked at, by any number of workers. */
  lemma {:induction false} ExpiryAfterLastTransitionIsOverwritten(s: System, i: nat)
    requires InRange(s) && Sound(s) && i < |s.workers| && !s.row.cancelRequested
    requires s.workers[i].pc == LAST_ENTER + 1 && s.workers[i].stage.Ready?
    ensures
      var work := Work(i, Answer(true, true));
      var end := Run(s, [work, work, work], 3);
      i < |end.workers| && end.workers[i].stage == Done(Completes) && end.row.status.Completed? && end.row.progress == 100
  {
    hide WorkerStep, Sound, Program;
    var yes := Answer(true, true);
    var events := [Work(i, yes), Work(i, yes), Work(i, yes)];
    var w := s.workers[i];
    assert Run(s, events, 0) == s;
    LastLines(s.row, w);
    var w1 := w.(pc := 26, passed := w.passed + {ReadVersion});
    var s1 := s.(workers := s.workers[i := w1]);
    assert Run(s, events, 1) == s1;
    LastLines(s.row, w1);
    var w2 := w1.(seen := s.row, pc := 27);
    var s2 := s.(workers := s.workers[i := w2]);
    assert Run(s, events, 2) == s2;
    LastLines(s.row, w2);
    assert Run(s, events, 3) == Next(s2, events[2]);
  }
}
