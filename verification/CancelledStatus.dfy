/** When the text status `cancelled` survives what a worker still does, and what overwrites it. */
module CancelledStatus {
  import opened Wrappers
  import opened OnboardingRow
  import opened OnboardingJob
  import opened OnboardingPath
  import opened OnboardingCompletion

  // ----- One step -----

  /** The status that `_fail` writes. */
  function FailStatus(w: Worker): Status {
    if w.installed then RollbackRequired else Failed
  }

  /** The worker is about to commit another status than the one it loaded. */
  predicate Overwrites(w: Worker) {
    match w.stage
    case Storing(mine) => mine.status != w.seen.status
    case Failing(_) => !AlreadySettled(w.seen) && w.seen.status != FailStatus(w)
    case Ready => w.pc == COMPLETE && !w.seen.status.Completed?
    case Done(_) => false
  }

  /** A step of a worker leaves `cancelled` in the row exactly when it does not commit another status. */
  lemma {:induction false} CancelledStaysIff(row: Row, w: Worker, reply: Reply)
    requires WellFormed(w) && row.status.Cancelled?
    ensures WorkerStep(row, w, reply).row.status.Cancelled? <==> !Overwrites(w)
  {
    hide Program, AfterCall, StartTransition, Evidence, Answering;
    ProgramShape(w.pc);
  }

  // ----- All the worker's own steps -----

  /** The row and the worker after a series of the worker's own steps. */
  ghost function OwnSteps(row: Row, w: Worker, replies: seq<Reply>): (m: Moved)
    requires WellFormed(w)
    ensures WellFormed(m.worker)
    decreases |replies|
  {
    if replies == [] then Moved(row, w)
    else
      var m := WorkerStep(row, w, replies[0]);
      WorkerKeepsForm(row, w, replies[0]);
      OwnSteps(m.row, m.worker, replies[1..])
  }

  /** An exception can come before the next look at the row: from a remote call, or from a demand on a bad answer. */
  function RaisesFirst(pc: nat, ok: bool): bool
    requires pc <= COMPLETE
    decreases COMPLETE - pc
  {
    match Program(pc)
    case Remote(_) => true
    case Require(_) => !ok || (pc < COMPLETE && RaisesFirst(pc + 1, ok))
    case _ => false
  }

  /**
   The worker can still put another status over a cancel that it has not seen: by the commit it is about to make, or by
   `_fail` after an exception that comes before its next look at the row.
   */
  predicate Exposed(w: Worker)
    requires w.pc <= COMPLETE
  {
    match w.stage
    case Storing(mine) => mine.status != w.seen.status || (w.pc < COMPLETE && RaisesFirst(w.pc + 1, w.ok))
    case Failing(_) => Overwrites(w)
    case Ready =>
      Overwrites(w) || (RaisesFirst(w.pc, w.ok) && !AlreadySettled(w.seen) && w.seen.status != FailStatus(w))
    case Done(_) => false
  }

  /** The row as a cancel leaves it; the code may have become that of an expiry since. */
  predicate CancelCommitted(row: Row) {
    row.status.Cancelled? && row.cancelRequested && AlreadySettled(row)
  }

  /** The worker will look at the row again, if its calls are answered. */
  predicate Looks(w: Worker)
    requires w.pc <= COMPLETE
  {
    match w.stage
    case Ready => w.pc < COMPLETE && (Program(w.pc).Require? ==> w.ok)
    case Storing(_) => w.pc < COMPLETE && (Program(w.pc + 1).Require? ==> w.ok)
    case _ => false
  }

  /** An exception that writes another code than `known` can come before the next look at the row. */
  predicate NewFaultFirst(pc: nat, ok: bool, known: Option<Code>)
    requires pc <= COMPLETE
    decreases COMPLETE - pc
  {
    match Program(pc)
    case Remote(_) => true
    case Require(call) => if ok then pc < COMPLETE && NewFaultFirst(pc + 1, ok, known) else known != Some(FaultOf(call))
    case _ => false
  }

  /**
   By `_fail` the worker can still write an error code that is neither a cancel's nor an expiry's. Even if it leaves the
   status alone, the next worker that looks at the row then fails over it.
   */
  predicate Spoils(w: Worker)
    requires w.pc <= COMPLETE
  {
    && !AlreadySettled(w.seen)
    && match w.stage
       case Failing(code) => code.Fault? && w.seen.errorCode != Some(code)
       case Ready => NewFaultFirst(w.pc, w.ok, w.seen.errorCode)
       case _ => false
  }

  /** Nothing but the cancel flag stands between the worker and completion. */
  predicate Behind(w: Worker) {
    (w.stage.Ready? && LAST_ENTER < w.pc < COMPLETE) || (w.stage.Storing? && w.pc == LAST_ENTER)
  }

  /** Nothing the worker does by itself takes `cancelled` away. */
  predicate Safe(row: Row, w: Worker)
    requires w.pc <= COMPLETE
  {
    && row.status.Cancelled? && !Exposed(w)
    && (AlreadySettled(row) || !Looks(w))
    && (row.cancelRequested || !Behind(w))
  }

  /** What a step of a safe worker leaves: it does not begin to look or to spoil, and only a spoiler spoils the code. */
  ghost predicate SafeStep(row: Row, w: Worker, m: Moved) {
    && w.pc <= COMPLETE && m.worker.pc <= COMPLETE
    && Safe(m.row, m.worker)
    && (Looks(m.worker) ==> Looks(w))
    && (Spoils(m.worker) ==> Spoils(w))
    && (Behind(m.worker) ==> Behind(w))
    && m.row.cancelRequested == row.cancelRequested
    && (AlreadySettled(row) && !AlreadySettled(m.row) ==> Spoils(w))
  }

  /** What the program does at an instruction that looks at the row, and that a call is followed by one. */
  lemma {:induction false} LooksAreNear(pc: nat)
    requires pc < COMPLETE
    ensures Program(pc).Remote? ==> !RaisesFirst(pc + 1, true) && !RaisesFirst(pc + 1, false) && pc + 1 < COMPLETE
    ensures pc + 1 == COMPLETE ==> Program(pc).Checkpoint?
    ensures Program(pc).Load? || Program(pc).Checkpoint? || Program(pc).Enter? ==>
              !RaisesFirst(pc, true) && !RaisesFirst(pc, false)
  {
  }

  lemma {:induction false} FaultsAreRaised(pc: nat, ok: bool, known: Option<Code>)
    requires pc <= COMPLETE
    ensures NewFaultFirst(pc, ok, known) ==> RaisesFirst(pc, ok)
    decreases COMPLETE - pc
  {
    hide Program;
    if Program(pc).Require? && ok && pc < COMPLETE {
      FaultsAreRaised(pc + 1, ok, known);
    }
  }

  lemma {:induction false} ReadyUnexposedStep(row: Row, w: Worker, reply: Reply)
    requires WellFormed(w) && Safe(row, w)
    requires w.stage.Ready?
    ensures SafeStep(row, w, WorkerStep(row, w, reply))
  {
    hide Program, AfterCall, Evidence, Answering;
    ProgramShape(w.pc);
    EveryStepCounts(row, w, reply);
    AnswersAreDemanded(w.pc);
    if w.pc < COMPLETE {
      LooksAreNear(w.pc);
    }
    if Program(w.pc).Remote? {
      CallStrolls(w, Program(w.pc).call, reply);
      FailedCallInstallsNothing(w, Program(w.pc).call, reply);
    }
  }

  lemma {:induction false} StoringUnexposedStep(row: Row, w: Worker, reply: Reply)
    requires WellFormed(w) && Safe(row, w)
    requires w.stage.Storing?
    ensures SafeStep(row, w, WorkerStep(row, w, reply))
  {
    hide ReadyStep, FailStep, Program, Evidence, Answering, NewFaultFirst, RaisesFirst;
    AnswersAreDemanded(w.pc);
    LooksAreNear(w.pc);
    FaultsAreRaised(w.pc + 1, w.ok, w.stage.mine.errorCode);
  }

  lemma {:induction false} UnexposedStep(row: Row, w: Worker, reply: Reply)
    requires WellFormed(w) && Safe(row, w)
    ensures SafeStep(row, w, WorkerStep(row, w, reply))
  {
    hide ReadyStep, Program, AfterCall, Evidence, Answering;
    match w.stage {
      case Storing(_) => StoringUnexposedStep(row, w, reply);
      case Ready => ReadyUnexposedStep(row, w, reply);
      case _ =>
    }
  }

  lemma FailedCallInstallsNothing(w: Worker, call: Call, reply: Reply)
    ensures AfterCall(w, call, reply).stage.Failing? && w.stage.Ready? ==> AfterCall(w, call, reply).installed == w.installed
  {
  }

  /** If exposed, the worker overwrites with its next step, or is exposed after it when it raises. */
  lemma {:induction false} ExposedStep(row: Row, w: Worker)
    requires WellFormed(w) && row.status.Cancelled? && Exposed(w)
    ensures
      var m := WorkerStep(row, w, Raises(""));
      m.worker.pc <= COMPLETE && (!m.row.status.Cancelled? || (Exposed(m.worker) && StepsLeft(m.worker) < StepsLeft(w)))
  {
    hide Program, AfterCall, Evidence, Answering;
    ProgramShape(w.pc);
    EveryStepCounts(row, w, Raises(""));
    if w.pc < COMPLETE {
      LooksAreNear(w.pc);
    }
    if w.stage.Ready? && Program(w.pc).Remote? {
      CallStrolls(w, Program(w.pc).call, Raises(""));
      RaisedCallFails(w, Program(w.pc).call);
    }
  }

  lemma RaisedCallFails(w: Worker, call: Call)
    ensures AfterCall(w, call, Raises("")).stage == Failing(Fault(""))
    ensures AfterCall(w, call, Raises("")).installed == w.installed
  {
  }

  lemma {:induction false} ExposedIsOverwritten(row: Row, w: Worker) returns (replies: seq<Reply>)
    requires WellFormed(w) && row.status.Cancelled? && Exposed(w)
    ensures !OwnSteps(row, w, replies).row.status.Cancelled?
    decreases StepsLeft(w)
  {
    hide Exposed, Evidence, Answering, WorkerStep, Program;
    var m := WorkerStep(row, w, Raises(""));
    ExposedStep(row, w);
    WorkerKeepsForm(row, w, Raises(""));
    var rest := [];
    if m.row.status.Cancelled? {
      rest := ExposedIsOverwritten(m.row, m.worker);
    }
    replies := [Raises("")] + rest;
    assert replies[1..] == rest;
  }

  lemma {:induction false} SafeKeepsCancelled(row: Row, w: Worker, replies: seq<Reply>)
    requires WellFormed(w) && Safe(row, w)
    ensures OwnSteps(row, w, replies).row.status.Cancelled?
    decreases |replies|
  {
    hide Exposed, Evidence, Answering, WorkerStep, Program;
    if replies != [] {
      var m := WorkerStep(row, w, replies[0]);
      WorkerKeepsForm(row, w, replies[0]);
      UnexposedStep(row, w, replies[0]);
      SafeKeepsCancelled(m.row, m.worker, replies[1..]);
    }
  }

  /**
   After a cancel has committed, `cancelled` survives everything that the worker may still do by itself exactly when the
   worker is not exposed: a commit under way, or an exception before its next look at the row, is what overwrites it.
   */
  lemma {:induction false} CancelledSurvivesIff(row: Row, w: Worker)
    requires WellFormed(w) && CancelCommitted(row)
    ensures (forall replies :: OwnSteps(row, w, replies).row.status.Cancelled?) <==> !Exposed(w)
  {
    hide Exposed, Evidence, Answering, Program, OwnSteps;
    if Exposed(w) {
      var replies := ExposedIsOverwritten(row, w);
    } else {
      forall replies
        ensures OwnSteps(row, w, replies).row.status.Cancelled?
      {
        SafeKeepsCancelled(row, w, replies);
      }
    }
  }

  // ----- One event of any kind -----

  /** The request is about to commit another status than the one it read, and not `cancelled` either. */
  predicate RequestOverwrites(r: Request) {
    match r
    case Expiring(_, seen) => !seen.cancelRequested && !seen.status.Failed?
    case Committing(RetryJob, seen) => !seen.status.Pending?
    case Committing(AskForRollback, seen) => !seen.status.RollbackRequired?
    case _ => false
  }

  predicate UndoOverwrites(u: Rollback, reply: UndoReply) {
    match u
    case Undoing(seen) =>
      (match reply
       case Removed(ok) => if ok then !seen.status.Failed? else !seen.status.RollbackRequired?
       case SshFails => !seen.status.RollbackRequired?
       case Crashes => false)
    case _ => false
  }

  predicate EventOverwrites(s: System, e: Event) {
    match e
    case Arrive(_) => false
    case Work(id, _) => id < |s.workers| && Overwrites(s.workers[id])
    case Serve(id, _) => id < |s.requests| && RequestOverwrites(s.requests[id])
    case Undo(id, reply) => id < |s.undos| && UndoOverwrites(s.undos[id], reply)
  }

  /**
   Exactly these events take `cancelled` away: a worker's commit of another status, the expiry of a job that was read
   unflagged, a retry, a request for a rollback, and the end of a rollback, the last four unless the status that they
   store is the one that they had read.
   */
  lemma {:induction false} EventKeepsCancelledIff(s: System, e: Event)
    requires InRange(s) && Sound(s) && s.row.status.Cancelled?
    ensures Next(s, e).row.status.Cancelled? <==> !EventOverwrites(s, e)
  {
    hide WorkerStep, Overwrites, WellFormed;
    if e.Work? && e.id < |s.workers| {
      CancelledStaysIff(s.row, s.workers[e.id], e.reply);
    }
  }

  ghost predicate Held(s: System, events: seq<Event>, m: nat, n: nat)
    requires InRange(s) && Sound(s) && m <= n <= |events|
  {
    forall k :: m <= k <= n ==> Run(s, events, k).row.status.Cancelled?
  }

  /** None of these events overwrites the status, each judged in the state that it meets. */
  ghost predicate Unthreatened(s: System, events: seq<Event>, m: nat, n: nat)
    requires InRange(s) && Sound(s) && m <= n <= |events|
  {
    forall k :: m <= k < n ==> !EventOverwrites(Run(s, events, k), events[k])
  }

  /** Over every run, with any number of workers, requests and rollbacks. */
  lemma {:induction false} CancelledIsHeldIff(s: System, events: seq<Event>, m: nat, n: nat)
    requires InRange(s) && Sound(s) && m <= n <= |events| && Run(s, events, m).row.status.Cancelled?
    ensures Held(s, events, m, n) <==> Unthreatened(s, events, m, n)
    decreases n
  {
    hide Next, Sound, EventOverwrites;
    if m < n {
      CancelledIsHeldIff(s, events, m, n - 1);
      var before, e := Run(s, events, n - 1), events[n - 1];
      assert Run(s, events, n) == Next(before, e);
      assert Held(s, events, m, n) <==> Held(s, events, m, n - 1) && Next(before, e).row.status.Cancelled?;
      assert Unthreatened(s, events, m, n) <==> Unthreatened(s, events, m, n - 1) && !EventOverwrites(before, e);
      if before.row.status.Cancelled? {
        EventKeepsCancelledIff(before, e);
      }
    }
  }

  /** An expiry that read the row before the cancel overwrites it, although the only worker is not exposed. */
  lemma {:induction false} LateExpiryOverwritesCancel()
    ensures InRange(START) && Sound(START)
    ensures
      var events := [Arrive(Poll), Serve(0, true), Arrive(CancelJob), Serve(1, false), Serve(1, false), Serve(0, true)];
      var cancelled, end := Run(START, events, 5), Run(START, events, 6);
      && CancelCommitted(cancelled.row) && cancelled.workers == [NEW_WORKER] && !Exposed(NEW_WORKER)
      && end.row.status.Failed?
  {
    StartIsSound();
    var events := [Arrive(Poll), Serve(0, true), Arrive(CancelJob), Serve(1, false), Serve(1, false), Serve(0, true)];
    assert Run(START, events, 1).requests == [Reading(Poll)];
    assert Run(START, events, 2) == START.(requests := [Expiring(Poll, CREATED)]);
    assert Run(START, events, 4) == START.(requests := [Expiring(Poll, CREATED), Committing(CancelJob, CREATED)]);
  }
}
