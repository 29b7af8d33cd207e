/** How soon a worker ends, and exactly when it can still complete its job. */
module OnboardingCompletion {
  import opened OnboardingRow
  import opened OnboardingJob
  import opened OnboardingSafety
  import opened OnboardingPath

  // ----- Termination -----

  /** An upper bound on the steps that a worker has left. */
  function StepsLeft(w: Worker): (n: nat)
    requires w.pc <= COMPLETE
    ensures n <= 56
  {
    match w.stage
    case Ready => 2 * (COMPLETE - w.pc) + 2
    case Storing(_) => 2 * (COMPLETE - w.pc) + 1
    case Failing(_) => 1
    case Done(_) => 0
  }

  lemma {:induction false} EveryStepCounts(row: Row, w: Worker, reply: Reply)
    requires WellFormed(w)
    ensures
      var w' := WorkerStep(row, w, reply).worker;
      w'.pc <= COMPLETE && (if w.stage.Done? then w' == w else StepsLeft(w') < StepsLeft(w))
  {
    hide Program, AfterCall, StartTransition, Evidence, Answering, Merge, AlreadySettled;
    ProgramShape(w.pc);
    WorkerKeepsForm(row, w, reply);
    if w.stage.Ready? && Program(w.pc).Remote? {
      CallStrolls(w, Program(w.pc).call, reply);
    }
    if w.stage.Ready? && Program(w.pc).Enter? {
      StartStays(row, w, Program(w.pc).step, !Program(w.pc).checked || w.ok);
    }
  }

  lemma StartStays(row: Row, w: Worker, step: Step, success: bool)
    ensures
      var w' := StartTransition(row, w, step, success);
      w'.pc == w.pc && (w'.stage.Storing? || w'.stage.Failing?) && w' == w.(seen := row, stage := w'.stage)
    ensures
      StartTransition(row, w, step, success).stage.Storing? <==> !Terminal(row.status) && !row.cancelRequested
  {
  }

  /** How many of the first `n` events are steps of worker `i`. */
  function Turns(events: seq<Event>, n: nat, i: nat): nat
    requires n <= |events|
  {
    if n == 0 then 0 else Turns(events, n - 1, i) + if events[n - 1].Work? && events[n - 1].id == i then 1 else 0
  }

  /** Whatever else happens, every step of a worker that is not over uses up one of the steps it had left. */
  lemma {:induction false} TurnsAreCounted(s: System, events: seq<Event>, n: nat, i: nat)
    requires InRange(s) && Sound(s) && n <= |events| && i < |s.workers|
    ensures i < |Run(s, events, n).workers|
    ensures
      var w' := Run(s, events, n).workers[i];
      w'.stage.Done? || StepsLeft(w') + Turns(events, n, i) <= StepsLeft(s.workers[i])
  {
    hide Next, WorkerStep, StepsLeft, WellFormed;
    if n > 0 {
      TurnsAreCounted(s, events, n - 1, i);
      var before, e := Run(s, events, n - 1), events[n - 1];
      WorkerMoves(before, e, i);
      if e.Work? && e.id == i {
        EveryStepCounts(before.row, before.workers[i], e.reply);
      }
    }
  }

  /** A worker that has taken as many steps as it had left, never more than 56, is over, whatever it meets. */
  lemma {:induction false} WorkersEnd(s: System, events: seq<Event>, n: nat, i: nat)
    requires InRange(s) && Sound(s) && n <= |events| && i < |s.workers|
    requires StepsLeft(s.workers[i]) <= Turns(events, n, i)
    ensures i < |Run(s, events, n).workers| && Run(s, events, n).workers[i].stage.Done?
  {
    TurnsAreCounted(s, events, n, i);
  }

  // ----- When completion is still open -----

  /**
   What decides whether the only worker can still complete. With the cancel flag set, nothing but its last line is left to
   it. Without, a job that is terminal stops a worker that has a transition to begin, but not one that is storing one and
   not one behind the last; and the two checks that the program demands must not have failed already.
   */
  predicate CompletionOpen(row: Row, w: Worker)
    requires w.pc <= COMPLETE
  {
    || w.stage == Done(Completes)
    || (w.stage.Ready? && w.pc == COMPLETE)
    || (&& !row.cancelRequested
        && (w.stage.Storing? || (w.stage.Ready? && (w.pc > LAST_ENTER || !Terminal(row.status))))
        && (Answering(w.pc).Some? ==> w.ok))
  }

  /** Answers are looked at where they are asked for and where they are demanded, nowhere else. */
  lemma {:induction false} AnswersAreDemanded(pc: nat)
    requires pc <= COMPLETE
    ensures Answering(pc).Some? ==> Program(pc).Enter? || Program(pc).Require?
    ensures Program(pc).Enter? ==> pc <= LAST_ENTER && Answering(pc + 1) == Answering(pc)
    ensures pc == LAST_ENTER ==> Program(pc).Enter?
    ensures pc == LAST_CHECKPOINT ==> Program(pc).Checkpoint?
  {
  }

  lemma {:induction false} ClosedCall(row: Row, w: Worker, call: Call, reply: Reply)
    requires WellFormed(w) && w.stage.Ready? && w.pc < COMPLETE && Program(w.pc) == Remote(call) && !CompletionOpen(row, w)
    ensures AfterCall(w, call, reply).pc <= COMPLETE && !CompletionOpen(row, AfterCall(w, call, reply))
  {
    hide Program, Answering, Evidence, Terminal;
    AnswersAreDemanded(w.pc);
    AnswersAreDemanded(w.pc + 1);
    CallStrolls(w, call, reply);
  }

  lemma {:induction false} ReadyOwnStepStaysClosed(row: Row, w: Worker, reply: Reply)
    requires WellFormed(w) && !CompletionOpen(row, w)
    requires w.stage.Ready?
    ensures
      var m := WorkerStep(row, w, reply);
      m.worker.pc <= COMPLETE && !CompletionOpen(m.row, m.worker)
  {
    hide Program, Answering, Evidence, AfterCall, StartTransition, Terminal, FailedWith, Finished, AlreadySettled;
    ProgramShape(w.pc);
    AnswersAreDemanded(w.pc);
    EveryStepCounts(row, w, reply);
    if w.pc < COMPLETE {
      AnswersAreDemanded(w.pc + 1);
    }
    if Program(w.pc).Remote? {
      ClosedCall(row, w, Program(w.pc).call, reply);
    }
    if Program(w.pc).Enter? {
      StartStays(row, w, Program(w.pc).step, !Program(w.pc).checked || w.ok);
    }
  }

  /** Once closed, completion is not opened again by the worker itself. */
  lemma {:induction false} OwnStepStaysClosed(row: Row, w: Worker, reply: Reply)
    requires WellFormed(w) && !CompletionOpen(row, w)
    ensures
      var m := WorkerStep(row, w, reply);
      m.worker.pc <= COMPLETE && !CompletionOpen(m.row, m.worker)
  {
    hide ReadyStep, Program, Answering, Evidence, AfterCall, StartTransition, Terminal, FailedWith, Finished, AlreadySettled;
    ProgramShape(w.pc);
    AnswersAreDemanded(w.pc);
    if w.stage.Ready? {
      ReadyOwnStepStaysClosed(row, w, reply);
    }
  }

  /** Nor by anybody else: without a retry, flags stay set and terminal jobs terminal. */
  lemma {:induction false} OthersStayClosed(row: Row, row': Row, w: Worker)
    requires w.pc <= COMPLETE && !CompletionOpen(row, w)
    requires row.cancelRequested ==> row'.cancelRequested
    requires Terminal(row.status) ==> Terminal(row'.status)
    ensures !CompletionOpen(row', w)
  {
  }

  lemma {:induction false} ClosedStays(s: System, e: Event)
    requires InRange(s) && Sound(s) && Alone(s) && e != Arrive(RetryJob)
    requires !CompletionOpen(s.row, s.workers[0])
    ensures Alone(Next(s, e)) && !CompletionOpen(Next(s, e).row, Next(s, e).workers[0])
  {
    hide WorkerStep, CompletionOpen, WellFormed, StepOf, Advances, Terminal;
    AloneStep(s, e);
    WorkerMoves(s, e, 0);
    if e.Work? {
      OwnStepStaysClosed(s.row, s.workers[0], e.reply);
    } else {
      if Terminal(s.row.status) {
        OthersKeepTerminal(s, e);
      }
      if s.row.cancelRequested {
        FlagIsKept(s, e);
      }
      OthersStayClosed(s.row, Next(s, e).row, s.workers[0]);
    }
  }

  lemma {:induction false} FlagIsKept(s: System, e: Event)
    requires InRange(s) && Sound(s) && Alone(s) && s.row.cancelRequested
    ensures Next(s, e).row.cancelRequested
  {
    hide Next, WellFormed, Tracks;
    OnlyRetryClearsFlag(s, e);
  }

  lemma {:induction false} ClosedForGood(s: System, events: seq<Event>, n: nat)
    requires InRange(s) && Sound(s) && Alone(s) && n <= |events| && NoRetryArrives(events)
    requires !CompletionOpen(s.row, s.workers[0])
    ensures Alone(Run(s, events, n)) && !CompletionOpen(Run(s, events, n).row, Run(s, events, n).workers[0])
  {
    hide Next, CompletionOpen, Tracks;
    if n > 0 {
      ClosedForGood(s, events, n - 1);
      ClosedStays(Run(s, events, n - 1), events[n - 1]);
    }
  }

  // ----- Taking the opening -----

  /** A good answer to the call keeps completion open. */
  lemma {:induction false} GoodCall(row: Row, w: Worker, call: Call)
    requires WellFormed(w) && w.stage.Ready? && w.pc < COMPLETE && Program(w.pc) == Remote(call) && CompletionOpen(row, w)
    ensures
      var w' := AfterCall(w, call, Answer(true, true));
      w'.pc == w.pc + 1 && w'.stage.Ready? && CompletionOpen(row, w')
  {
    hide Program, Evidence, Terminal;
  }

  /** With good answers and nobody else at work, every step takes the worker closer to completion. */
  lemma {:induction false} GoodStep(row: Row, w: Worker)
    requires Tracks(row, w) && CompletionOpen(row, w) && w.stage != Done(Completes)
    ensures
      var m := WorkerStep(row, w, Answer(true, true));
      && Tracks(m.row, m.worker) && CompletionOpen(m.row, m.worker) && StepsLeft(m.worker) < StepsLeft(w)
  {
    hide Program, Evidence, AfterCall, StartTransition, FailedWith, Finished, AlreadySettled, StepOf, StepProgress;
    ProgramShape(w.pc);
    AnswersAreDemanded(w.pc);
    OwnStepTracks(row, w, Answer(true, true));
    EveryStepCounts(row, w, Answer(true, true));
    if w.pc < COMPLETE {
      AnswersAreDemanded(w.pc + 1);
    }
    if w.stage.Storing? {
      StoreTracks(row, w, Answer(true, true));
    }
    if w.stage.Ready? && Program(w.pc).Remote? {
      GoodCall(row, w, Program(w.pc).call);
    }
    if w.stage.Ready? && Program(w.pc).Enter? {
      StartStays(row, w, Program(w.pc).step, !Program(w.pc).checked || w.ok);
    }
  }

  /** `n` steps of the only worker, all answers good. */
  function GoodTurns(n: nat): (events: seq<Event>)
    ensures |events| == n && NoRetryArrives(events)
  {
    seq(n, _ => Work(0, Answer(true, true)))
  }

  lemma {:induction false} GoodTurnsComplete(s: System, n: nat, k: nat)
    requires InRange(s) && Sound(s) && Alone(s) && CompletionOpen(s.row, s.workers[0]) && k <= n
    ensures
      var end := Run(s, GoodTurns(n), k);
      && Alone(end)
      && (end.workers[0].stage == Done(Completes)
          || (CompletionOpen(end.row, end.workers[0]) && StepsLeft(end.workers[0]) + k <= StepsLeft(s.workers[0])))
  {
    hide WorkerStep, CompletionOpen, StepsLeft, Tracks;
    if k > 0 {
      GoodTurnsComplete(s, n, k - 1);
      var before, e := Run(s, GoodTurns(n), k - 1), GoodTurns(n)[k - 1];
      AloneStep(before, e);
      if before.workers[0].stage == Done(Completes) {
        DoneStays(before, e, 0);
      } else {
        GoodStep(before.row, before.workers[0]);
      }
    }
  }

  /** After these events, none of them a retry, the first worker has completed the job. */
  ghost predicate LeadsToCompletion(s: System, events: seq<Event>)
    requires InRange(s) && Sound(s)
  {
    var end := Run(s, events, |events|);
    NoRetryArrives(events) && |end.workers| > 0 && end.workers[0].stage == Done(Completes)
  }

  lemma {:induction false} OpenLeadsToCompletion(s: System)
    requires InRange(s) && Sound(s) && Alone(s) && CompletionOpen(s.row, s.workers[0])
    ensures LeadsToCompletion(s, GoodTurns(StepsLeft(s.workers[0])))
  {
    hide CompletionOpen, WellFormed;
    var n := StepsLeft(s.workers[0]);
    GoodTurnsComplete(s, n, n);
    OnlyDoneHasNoSteps(Run(s, GoodTurns(n), n).row, Run(s, GoodTurns(n), n).workers[0]);
  }

  lemma {:induction false} OnlyDoneHasNoSteps(row: Row, w: Worker)
    requires w.pc <= COMPLETE && StepsLeft(w) == 0 && CompletionOpen(row, w)
    ensures w.stage == Done(Completes)
  {
  }

  lemma {:induction false} ClosedNeverCompletes(s: System, events: seq<Event>)
    requires InRange(s) && Sound(s) && Alone(s) && !CompletionOpen(s.row, s.workers[0])
    ensures !LeadsToCompletion(s, events)
  {
    hide WellFormed, Answering;
    if NoRetryArrives(events) {
      ClosedForGood(s, events, |events|);
    }
  }

  /** With one worker and no retry, some course of events completes the job exactly when completion is open. */
  lemma {:induction false} CompletesIffOpen(s: System)
    requires InRange(s) && Sound(s) && Alone(s)
    ensures CompletionOpen(s.row, s.workers[0]) <==> exists events :: LeadsToCompletion(s, events)
  {
    hide CompletionOpen, LeadsToCompletion;
    if CompletionOpen(s.row, s.workers[0]) {
      OpenLeadsToCompletion(s);
    } else {
      forall events
        ensures !LeadsToCompletion(s, events)
      {
        ClosedNeverCompletes(s, events);
      }
    }
  }

  /**
   What an expiry is worth. A terminal job without the cancel flag can still be completed by its worker exactly when the
   worker has completed already, stands behind its last transition, or is between the refresh and the commit of a
   transition that is not followed by a demand on an answer that was bad.
   */
  lemma {:induction false} ExpiryLeavesOpenIff(s: System)
    requires InRange(s) && Sound(s) && Alone(s) && Terminal(s.row.status) && !s.row.cancelRequested
    ensures
      var w := s.workers[0];
      (exists events :: LeadsToCompletion(s, events)) <==>
      || w.stage == Done(Completes)
      || (w.stage.Ready? && w.pc > LAST_ENTER)
      || (w.stage.Storing? && w.pc < COMPLETE && (Program(w.pc + 1).Require? ==> w.ok))
  {
    hide LeadsToCompletion, Program;
    CompletesIffOpen(s);
    DemandsFollow(s.workers[0]);
  }

  lemma {:induction false} DemandsFollow(w: Worker)
    requires WellFormed(w)
    ensures w.stage.Storing? ==> w.pc < COMPLETE && (Answering(w.pc).Some? <==> Program(w.pc + 1).Require?)
    ensures w.pc > LAST_ENTER ==> Answering(w.pc).None?
  {
  }

  /** A transition under way when the job expires is stored over the terminal status. */
  lemma {:induction false} StoringRevivesTheRow(s: System, reply: Reply)
    requires InRange(s) && Sound(s) && Alone(s) && s.workers[0].stage.Storing?
    ensures Next(s, Work(0, reply)).row.status == s.workers[0].stage.mine.status
    ensures !Terminal(Next(s, Work(0, reply)).row.status)
  {
    hide Program, StepOf, StepProgress;
    StoreTracks(s.row, s.workers[0], reply);
  }
}
