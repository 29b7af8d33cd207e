/** Exactly when the text status `cancelled` survives everything that is under way. */
module CancelledSurvival {
  import opened Wrappers
  import opened OnboardingRow
  import opened OnboardingJob
  import opened OnboardingPath
  import opened OnboardingCompletion
  import opened CancelledStatus

  // ----- What is under way -----

  /**
   The request neither takes `cancelled` away nor leads to a retry or a rollback that would. A retry of a job that it read
   as pending and without an error code stores neither status nor code.
   */
  predicate Harmless(r: Request) {
    match r
    case Reading(kind) => !kind.RetryJob? && !kind.AskForRollback?
    case Expiring(kind, seen) => !kind.RetryJob? && !kind.AskForRollback? && (seen.cancelRequested || seen.status.Failed?)
    case Committing(RetryJob, seen) => seen.status.Pending? && seen.errorCode.None?
    case Committing(kind, _) => !kind.AskForRollback?
    case Answered => true
  }

  /** The request is about to start a worker. */
  predicate Spawns(r: Request) {
    r.Committing? && r.kind.RetryJob?
  }

  /** And to clear the flag. */
  predicate Clears(r: Request) {
    Spawns(r) && r.seen.cancelRequested
  }

  /** A worker may spoil the code while another looks at the row, or is about to be started. */
  predicate Clashes(s: System)
    requires InRange(s)
  {
    exists i :: 0 <= i < |s.workers| && Spoils(s.workers[i])
                && ((exists j :: 0 <= j < |s.workers| && i != j && Looks(s.workers[j]))
                    || (exists j :: 0 <= j < |s.requests| && Spawns(s.requests[j])))
  }

  /** A request may clear the flag under a worker that nothing else holds back. */
  predicate Frees(s: System) {
    && (exists i :: 0 <= i < |s.workers| && Behind(s.workers[i]))
    && (exists j :: 0 <= j < |s.requests| && Clears(s.requests[j]))
  }

  predicate OthersHarmless(s: System) {
    && (forall i :: 0 <= i < |s.requests| ==> Harmless(s.requests[i]))
    && (forall i :: 0 <= i < |s.undos| ==> s.undos[i].Over?)
  }

  /** Nothing under way can take `cancelled` away. */
  predicate Quiet(s: System)
    requires InRange(s)
  {
    && (forall i :: 0 <= i < |s.workers| ==> !Exposed(s.workers[i]))
    && !Clashes(s) && !Frees(s) && OthersHarmless(s)
  }

  /** The invariant of a quiet system after a cancel. */
  predicate Calm(s: System)
    requires InRange(s)
  {
    && s.row.status.Cancelled?
    && (forall i :: 0 <= i < |s.workers| ==> Safe(s.row, s.workers[i]))
    && (AlreadySettled(s.row) || forall j :: 0 <= j < |s.requests| ==> !Spawns(s.requests[j]))
    && !Clashes(s) && !Frees(s) && OthersHarmless(s)
  }

  /** Nobody asks for a retry or a rollback any more; cancels, removals and polls may come at any time. */
  predicate Undisturbed(events: seq<Event>) {
    forall k :: 0 <= k < |events| ==> events[k] != Arrive(RetryJob) && events[k] != Arrive(AskForRollback)
  }

  /** The status is not `cancelled` after these events, none of which asks for a retry or a rollback. */
  ghost predicate LosesCancelled(s: System, events: seq<Event>)
    requires InRange(s) && Sound(s)
  {
    Undisturbed(events) && !Run(s, events, |events|).row.status.Cancelled?
  }

  /** What a harmless request leaves. */
  lemma {:induction false} HarmlessStep(row: Row, r: Request, overdue: bool)
    requires Harmless(r) && row.status.Cancelled?
    ensures
      var served := RequestStep(row, r, overdue);
      && Harmless(served.request) && !Spawns(served.request)
      && served.row.status.Cancelled?
      && (AlreadySettled(row) ==> AlreadySettled(served.row))
      && (row.cancelRequested && !served.row.cancelRequested ==> Clears(r))
  {
  }

  /** A step of a safe worker leaves the others safe, and no clash arises. */
  lemma {:induction false} WorkStaysCalm(s: System, i: nat, reply: Reply)
    requires InRange(s) && Sound(s) && Calm(s) && i < |s.workers|
    ensures InRange(Next(s, Work(i, reply))) && Calm(Next(s, Work(i, reply)))
  {
    hide WorkerStep, Exposed, Looks, Spoils, Behind, WellFormed, AlreadySettled, Harmless, Spawns, Clears;
    UnexposedStep(s.row, s.workers[i], reply);
  }

  lemma NewWorkerIsSafe(row: Row)
    requires row.status.Cancelled? && AlreadySettled(row)
    ensures NEW_WORKER.pc <= COMPLETE && Safe(row, NEW_WORKER) && !Spoils(NEW_WORKER) && !Behind(NEW_WORKER)
  {
  }

  lemma {:induction false} ServeStaysCalm(s: System, i: nat, overdue: bool)
    requires InRange(s) && Sound(s) && Calm(s) && i < |s.requests|
    ensures InRange(Next(s, Serve(i, overdue))) && Calm(Next(s, Serve(i, overdue)))
  {
    hide RequestStep, Exposed, Looks, Spoils, Behind, WellFormed, AlreadySettled;
    HarmlessStep(s.row, s.requests[i], overdue);
    var row' := RequestStep(s.row, s.requests[i], overdue).row;
    if Spawns(s.requests[i]) {
      NewWorkerIsSafe(row');
    }
  }

  lemma {:induction false} CalmStays(s: System, e: Event)
    requires InRange(s) && Sound(s) && Calm(s) && e != Arrive(RetryJob) && e != Arrive(AskForRollback)
    ensures InRange(Next(s, e)) && Calm(Next(s, e))
  {
    hide WorkerStep, RequestStep, Safe, Looks, Spoils, Behind, WellFormed, AlreadySettled;
    if e.Work? && e.id < |s.workers| {
      WorkStaysCalm(s, e.id, e.reply);
    } else if e.Serve? && e.id < |s.requests| {
      ServeStaysCalm(s, e.id, e.overdue);
    }
  }

  lemma {:induction false} CalmKeepsCancelled(s: System, events: seq<Event>, n: nat)
    requires InRange(s) && Sound(s) && Calm(s) && Undisturbed(events) && n <= |events|
    ensures Calm(Run(s, events, n)) && Run(s, events, n).row.status.Cancelled?
  {
    hide Next, Safe, Clashes, Frees, OthersHarmless;
    if n > 0 {
      CalmKeepsCancelled(s, events, n - 1);
      CalmStays(Run(s, events, n - 1), events[n - 1]);
    }
  }

  // ----- Making it happen -----

  lemma {:induction false} NextIsSound(s: System, e: Event)
    requires InRange(s) && Sound(s)
    ensures InRange(Next(s, e)) && Sound(Next(s, e))
  {
    hide Next, Evidence, Answering, Program;
    StepKeepsForm(s, e);
  }

  lemma {:induction false} RunFromSecond(s: System, e: Event, events: seq<Event>, n: nat)
    requires InRange(s) && Sound(s) && n <= |events|
    ensures InRange(Next(s, e)) && Sound(Next(s, e))
    ensures Run(s, [e] + events, n + 1) == Run(Next(s, e), events, n)
  {
    hide Next, Sound;
    NextIsSound(s, e);
    if n > 0 {
      RunFromSecond(s, e, events, n - 1);
      assert ([e] + events)[n] == events[n - 1];
    } else {
      assert Run(s, [e] + events, 0) == s;
    }
  }

  /** Takes the event first, and then what loses the status, if it is not lost already. */
  lemma {:induction false} LoseAfter(s: System, e: Event, rest: seq<Event>) returns (events: seq<Event>)
    requires InRange(s) && Sound(s) && !e.Arrive?
    requires InRange(Next(s, e)) && Sound(Next(s, e)) && LosesCancelled(Next(s, e), rest)
    ensures LosesCancelled(s, events)
  {
    hide Next, Sound;
    events := [e] + rest;
    RunFromSecond(s, e, rest, |rest|);
  }

  lemma {:induction false} LoseNow(s: System, e: Event) returns (events: seq<Event>)
    requires InRange(s) && Sound(s) && s.row.status.Cancelled? && EventOverwrites(s, e)
    ensures LosesCancelled(s, events)
  {
    hide Next, Sound, EventOverwrites;
    NextIsSound(s, e);
    EventKeepsCancelledIff(s, e);
    assert !e.Arrive? by { ArrivalsOverwriteNothing(s, e); }
    events := LoseAfter(s, e, []);
  }

  lemma ArrivalsOverwriteNothing(s: System, e: Event)
    ensures EventOverwrites(s, e) ==> !e.Arrive?
  {
  }

  lemma {:induction false} UndoLoses(s: System, i: nat) returns (events: seq<Event>)
    requires InRange(s) && Sound(s) && s.row.status.Cancelled? && i < |s.undos| && !s.undos[i].Over?
    ensures LosesCancelled(s, events)
  {
    hide Sound, LosesCancelled, WorkerStep, RequestStep;
    if s.undos[i].Starting? {
      var e := Undo(i, Crashes);
      NextIsSound(s, e);
      events := LoseNow(Next(s, e), Undo(i, Removed(true)));
      events := LoseAfter(s, e, events);
    } else {
      events := LoseNow(s, Undo(i, Removed(!s.undos[i].seen.status.Failed?)));
    }
  }

  lemma {:induction false} CommittingLoses(s: System, i: nat) returns (events: seq<Event>)
    requires InRange(s) && Sound(s) && s.row.status.Cancelled?
    requires i < |s.requests| && s.requests[i].Committing?
    requires s.requests[i].kind.AskForRollback? || (s.requests[i].kind.RetryJob? && !s.requests[i].seen.status.Pending?)
    ensures LosesCancelled(s, events)
  {
    hide Sound, LosesCancelled, WorkerStep, UndoStep;
    var e := Serve(i, false);
    NextIsSound(s, e);
    EventKeepsCancelledIff(s, e);
    if RequestOverwrites(s.requests[i]) {
      events := LoseNow(s, e);
    } else {
      events := UndoLoses(Next(s, e), |s.undos|);
      events := LoseAfter(s, e, events);
    }
  }

  lemma {:induction false} WorkerLoses(s: System, i: nat) returns (events: seq<Event>)
    requires InRange(s) && Sound(s) && s.row.status.Cancelled? && i < |s.workers| && Exposed(s.workers[i])
    ensures LosesCancelled(s, events)
    decreases StepsLeft(s.workers[i])
  {
    hide LosesCancelled, WorkerStep, RequestStep, UndoStep, Exposed, StepsLeft, WellFormed;
    var e := Work(i, Raises(""));
    NextIsSound(s, e);
    EventKeepsCancelledIff(s, e);
    ExposedStep(s.row, s.workers[i]);
    if EventOverwrites(s, e) {
      events := LoseNow(s, e);
    } else {
      events := WorkerLoses(Next(s, e), i);
      events := LoseAfter(s, e, events);
    }
  }

  /** A retry of a job read as pending with an error code wipes the code, and the new worker then fails over the row. */
  lemma {:induction false} WipedCodeLoses(s: System, i: nat) returns (events: seq<Event>)
    requires InRange(s) && Sound(s) && s.row.status.Cancelled? && i < |s.requests| && Spawns(s.requests[i])
    requires s.requests[i].seen.status.Pending? && s.requests[i].seen.errorCode.Some?
    ensures LosesCancelled(s, events)
  {
    hide Sound, LosesCancelled, RequestStep, UndoStep, WorkerStep;
    var e, f := Serve(i, false), Work(|s.workers|, Raises(""));
    NextIsSound(s, e);
    NextIsSound(Next(s, e), f);
    WipedCode(s.row, s.requests[i], Raises(""));
    events := WorkerLoses(Next(Next(s, e), f), |s.workers|);
    events := LoseAfter(Next(s, e), f, events);
    events := LoseAfter(s, e, events);
  }

  lemma {:induction false} WipedCode(row: Row, r: Request, reply: Reply)
    requires row.status.Cancelled? && Spawns(r) && r.seen.status.Pending? && r.seen.errorCode.Some? && reply.Raises?
    ensures
      var row' := RequestStep(row, r, false).row;
      var m := WorkerStep(row', NEW_WORKER, reply);
      m.row.status.Cancelled? && m.worker.pc <= COMPLETE && Exposed(m.worker)
  {
  }

  lemma {:induction false} RequestLoses(s: System, i: nat) returns (events: seq<Event>)
    requires InRange(s) && Sound(s) && s.row.status.Cancelled?
    requires i < |s.requests| && !Harmless(s.requests[i])
    ensures LosesCancelled(s, events)
  {
    hide Sound, LosesCancelled, WorkerStep, UndoStep;
    var e := Serve(i, false);
    NextIsSound(s, e);
    EventKeepsCancelledIff(s, e);
    if RequestOverwrites(s.requests[i]) {
      events := LoseNow(s, e);
    } else if Spawns(s.requests[i]) {
      events := WipedCodeLoses(s, i);
    } else if s.requests[i].Committing? {
      events := CommittingLoses(s, i);
    } else {
      events := CommittingLoses(Next(s, e), i);
      events := LoseAfter(s, e, events);
    }
  }

  /** What leads a worker to its next look: a good answer; at the load, which looks itself, a refusal. */
  function Leading(w: Worker): Reply {
    if w.pc == 0 then Raises("") else Answer(true, true)
  }

  /** On a spoilt row a worker that looks is exposed in the end. */
  lemma {:induction false} LookerStep(row: Row, w: Worker)
    requires WellFormed(w) && Looks(w) && row.status.Cancelled? && !AlreadySettled(row)
    ensures
      var m := WorkerStep(row, w, Leading(w));
      && m.worker.pc <= COMPLETE
      && (!m.row.status.Cancelled?
          || Exposed(m.worker)
          || (Looks(m.worker) && StepsLeft(m.worker) < StepsLeft(w) && !AlreadySettled(m.row)))
  {
    hide Program, AfterCall, Evidence, Answering;
    ProgramShape(w.pc);
    EveryStepCounts(row, w, Leading(w));
    LooksAreNear(w.pc);
    if w.stage.Ready? && Program(w.pc).Remote? {
      CallStrolls(w, Program(w.pc).call, Leading(w));
      GoodCallPasses(w, Program(w.pc).call);
    }
  }

  lemma GoodCallPasses(w: Worker, call: Call)
    requires w.stage.Ready?
    ensures AfterCall(w, call, Answer(true, true)).stage.Ready?
  {
  }

  lemma {:induction false} LookerLoses(s: System, i: nat) returns (events: seq<Event>)
    requires InRange(s) && Sound(s) && i < |s.workers| && Looks(s.workers[i])
    requires s.row.status.Cancelled? && !AlreadySettled(s.row)
    ensures LosesCancelled(s, events)
    decreases StepsLeft(s.workers[i])
  {
    hide LosesCancelled, WorkerStep, RequestStep, UndoStep, Exposed, StepsLeft, WellFormed, Looks, Overwrites;
    var e := Work(i, Leading(s.workers[i]));
    NextIsSound(s, e);
    EventKeepsCancelledIff(s, e);
    LookerStep(s.row, s.workers[i]);
    if EventOverwrites(s, e) {
      events := LoseNow(s, e);
    } else {
      if Exposed(Next(s, e).workers[i]) {
        events := WorkerLoses(Next(s, e), i);
      } else {
        events := LookerLoses(Next(s, e), i);
      }
      events := LoseAfter(s, e, events);
    }
  }

  /** An exception whose code is not the one the worker has loaded. */
  function Telling(w: Worker): Reply {
    Raises(if w.seen.errorCode == Some(Fault("")) then "x" else "")
  }

  /** A spoiler that is not exposed spoils the code with its next step, or can still do so after it. */
  lemma {:induction false} SpoilerStep(row: Row, w: Worker)
    requires WellFormed(w) && Spoils(w) && !Exposed(w) && row.status.Cancelled?
    ensures
      var m := WorkerStep(row, w, Telling(w));
      && m.worker.pc <= COMPLETE
      && m.row.status.Cancelled? && !Exposed(m.worker)
      && StepsLeft(m.worker) < StepsLeft(w)
      && if w.stage.Failing? then !AlreadySettled(m.row) else m.row == row && Spoils(m.worker)
  {
    hide Program, AfterCall, Evidence, Answering;
    ProgramShape(w.pc);
    EveryStepCounts(row, w, Telling(w));
    if w.pc < COMPLETE {
      LooksAreNear(w.pc);
    }
    if w.stage.Ready? && Program(w.pc).Remote? {
      CallStrolls(w, Program(w.pc).call, Telling(w));
      TellingCallFails(w, Program(w.pc).call);
    }
  }

  lemma TellingCallFails(w: Worker, call: Call)
    ensures AfterCall(w, call, Telling(w)).stage == Failing(Fault(Telling(w).name))
    ensures AfterCall(w, call, Telling(w)).installed == w.installed
  {
  }

  lemma {:induction false} ClashLoses(s: System, i: nat, j: nat) returns (events: seq<Event>)
    requires InRange(s) && Sound(s) && s.row.status.Cancelled?
    requires i < |s.workers| && j < |s.workers| && i != j
    requires Spoils(s.workers[i]) && !Exposed(s.workers[i]) && Looks(s.workers[j])
    ensures LosesCancelled(s, events)
    decreases StepsLeft(s.workers[i])
  {
    hide LosesCancelled, WorkerStep, RequestStep, UndoStep, Exposed, StepsLeft, WellFormed, Looks, AlreadySettled, Spoils;
    var e := Work(i, Telling(s.workers[i]));
    NextIsSound(s, e);
    SpoilerStep(s.row, s.workers[i]);
    if s.workers[i].stage.Failing? {
      events := LookerLoses(Next(s, e), j);
    } else {
      events := ClashLoses(Next(s, e), i, j);
    }
    events := LoseAfter(s, e, events);
  }

  /** The same with a worker that is only about to be started. */
  lemma {:induction false} SpawningLoses(s: System, i: nat, j: nat) returns (events: seq<Event>)
    requires InRange(s) && Sound(s) && CancelCommitted(s.row)
    requires i < |s.workers| && Spoils(s.workers[i]) && !Exposed(s.workers[i])
    requires j < |s.requests| && Spawns(s.requests[j]) && Harmless(s.requests[j])
    ensures LosesCancelled(s, events)
  {
    hide Sound, LosesCancelled, WorkerStep, RequestStep, UndoStep, Exposed, AlreadySettled, Spoils;
    var e := Serve(j, false);
    NextIsSound(s, e);
    HarmlessStep(s.row, s.requests[j], false);
    NewWorkerLooks();
    events := ClashLoses(Next(s, e), i, |s.workers|);
    events := LoseAfter(s, e, events);
  }

  lemma NewWorkerLooks()
    ensures NEW_WORKER.pc <= COMPLETE && Looks(NEW_WORKER)
  {
  }

  /** Without the flag a worker behind the last transition overwrites the status, at the latest by completing the job. */
  lemma {:induction false} BehindStep(row: Row, w: Worker)
    requires WellFormed(w) && Behind(w) && row.status.Cancelled? && !row.cancelRequested
    ensures
      var m := WorkerStep(row, w, Answer(true, true));
      && m.worker.pc <= COMPLETE
      && (!m.row.status.Cancelled?
          || Exposed(m.worker)
          || (Behind(m.worker) && StepsLeft(m.worker) < StepsLeft(w) && !m.row.cancelRequested))
  {
    hide Evidence, Answering, StepsLeft, StartTransition, FailStep, AlreadySettled;
    EveryStepCounts(row, w, Answer(true, true));
  }

  lemma {:induction false} BehindLoses(s: System, i: nat) returns (events: seq<Event>)
    requires InRange(s) && Sound(s) && i < |s.workers| && Behind(s.workers[i])
    requires s.row.status.Cancelled? && !s.row.cancelRequested
    ensures LosesCancelled(s, events)
    decreases StepsLeft(s.workers[i])
  {
    hide LosesCancelled, WorkerStep, RequestStep, UndoStep, Exposed, StepsLeft, WellFormed, Behind, Overwrites;
    var e := Work(i, Answer(true, true));
    NextIsSound(s, e);
    EventKeepsCancelledIff(s, e);
    BehindStep(s.row, s.workers[i]);
    if EventOverwrites(s, e) {
      events := LoseNow(s, e);
    } else {
      if Exposed(Next(s, e).workers[i]) {
        events := WorkerLoses(Next(s, e), i);
      } else {
        events := BehindLoses(Next(s, e), i);
      }
      events := LoseAfter(s, e, events);
    }
  }

  lemma {:induction false} FreeingLoses(s: System, i: nat, j: nat) returns (events: seq<Event>)
    requires InRange(s) && Sound(s) && CancelCommitted(s.row)
    requires i < |s.workers| && Behind(s.workers[i])
    requires j < |s.requests| && Clears(s.requests[j]) && Harmless(s.requests[j])
    ensures LosesCancelled(s, events)
  {
    hide Sound, LosesCancelled, WorkerStep, RequestStep, UndoStep, Behind;
    var e := Serve(j, false);
    NextIsSound(s, e);
    HarmlessStep(s.row, s.requests[j], false);
    ClearedFlag(s.row, s.requests[j]);
    events := BehindLoses(Next(s, e), i);
    events := LoseAfter(s, e, events);
  }

  lemma ClearedFlag(row: Row, r: Request)
    requires Clears(r)
    ensures !RequestStep(row, r, false).row.cancelRequested
  {
  }

  lemma {:induction false} QuietIsCalm(s: System)
    requires InRange(s) && Quiet(s) && CancelCommitted(s.row)
    ensures Calm(s)
  {
    hide Exposed, Clashes, Frees, OthersHarmless, AlreadySettled, Looks, Behind;
  }

  lemma {:induction false} CalmLosesNothing(s: System, events: seq<Event>)
    requires InRange(s) && Sound(s) && Calm(s)
    ensures !LosesCancelled(s, events)
  {
    hide Calm, Sound;
    if Undisturbed(events) {
      CalmKeepsCancelled(s, events, |events|);
    }
  }

  lemma {:induction false} LoudLoses(s: System) returns (events: seq<Event>)
    requires InRange(s) && Sound(s) && CancelCommitted(s.row) && !Quiet(s)
    ensures LosesCancelled(s, events)
  {
    hide Sound, LosesCancelled, Exposed, Harmless, Spoils, Looks, Behind, Spawns, Clears, CancelCommitted;
    CommittedIsCancelled(s.row);
    if i :| 0 <= i < |s.workers| && Exposed(s.workers[i]) {
      events := WorkerLoses(s, i);
    } else if i :| 0 <= i < |s.requests| && !Harmless(s.requests[i]) {
      events := RequestLoses(s, i);
    } else if i :| 0 <= i < |s.undos| && !s.undos[i].Over? {
      events := UndoLoses(s, i);
    } else if Frees(s) {
      var i :| 0 <= i < |s.workers| && Behind(s.workers[i]);
      var j :| 0 <= j < |s.requests| && Clears(s.requests[j]);
      events := FreeingLoses(s, i, j);
    } else {
      var i :| 0 <= i < |s.workers| && Spoils(s.workers[i])
               && ((exists j :: 0 <= j < |s.workers| && i != j && Looks(s.workers[j]))
                   || (exists j :: 0 <= j < |s.requests| && Spawns(s.requests[j])));
      if j :| 0 <= j < |s.workers| && i != j && Looks(s.workers[j]) {
        events := ClashLoses(s, i, j);
      } else {
        var j :| 0 <= j < |s.requests| && Spawns(s.requests[j]);
        events := SpawningLoses(s, i, j);
      }
    }
  }

  lemma CommittedIsCancelled(row: Row)
    requires CancelCommitted(row)
    ensures row.status.Cancelled?
  {
  }

  /**
   After a cancel has committed, with any number of workers, requests and rollbacks under way but no retry or rollback
   asked for from then on, `cancelled` survives every course of events exactly when nothing under way can take it away:
   no worker is exposed; none may spoil the code while another looks or is about to be started; no request may clear the
   flag under a worker behind the last transition; no request is about to store the expiry of a job that it read
   unflagged, nor leads to a rollback or to a retry that stores a status or wipes a code; and no rollback is at work.
   */
  lemma {:induction false} CancelledSurvivesAllIff(s: System)
    requires InRange(s) && Sound(s) && CancelCommitted(s.row)
    ensures Quiet(s) <==> forall events :: !LosesCancelled(s, events)
  {
    hide LosesCancelled, Quiet, CancelCommitted, WellFormed;
    if Quiet(s) {
      QuietIsCalm(s);
      forall events
        ensures !LosesCancelled(s, events)
      {
        CalmLosesNothing(s, events);
      }
    } else {
      var events := LoudLoses(s);
    }
  }
}
