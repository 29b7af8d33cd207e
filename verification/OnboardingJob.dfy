/**
 The onboarding protocol (app/services/onboarding_service.py, app/api/v1/onboarding.py, app/api/v1/servers.py): any
 number of background workers, API requests and rollback tasks share one row. A refresh and the commit that follows it
 are separate steps, and everything may happen in between. A run is any sequence of events; remote answers, exceptions
 and the age of the row are part of the events.
 */
module OnboardingJob {
  import opened Wrappers
  import opened OnboardingRow

  // ----- The worker -----

  /** Remote work of `run`, in the order of the program. */
  datatype Call =
    | Connect | Precheck | CheckExporter | InstallOrUpdate | Firewall | VerifyExporter | RegisterInventory
    | RequireUrl | ProbePrometheus | ReadVersion

  datatype Instr =
    | Load
    | Enter(step: Step, checked: bool)   // `_transition`; a checked one takes its success from the last answer
    | Checkpoint                         // `_check_cancel`
    | Remote(call: Call)
    | Require(call: Call)                // raises unless the last answer, which is that call's, was good
    | Complete

  const LAST_ENTER: nat := 24
  const LAST_CHECKPOINT: nat := 26
  const COMPLETE: nat := 27

  /** The body of `run`. */
  function Program(pc: nat): Instr
    requires pc <= COMPLETE
  {
    match pc
    case 0 => Load
    case 1 => Enter(Connecting, false)
    case 2 => Remote(Connect)
    case 3 => Enter(Authenticating, false)
    case 4 => Checkpoint
    case 5 => Remote(Precheck)
    case 6 => Enter(Discovering, false)
    case 7 => Remote(CheckExporter)
    case 8 => Enter(InstallingExporter, true)
    case 9 => Remote(InstallOrUpdate)
    case 10 => Checkpoint
    case 11 => Remote(Firewall)
    case 12 => Enter(ConfiguringFirewall, true)
    case 13 => Require(Firewall)
    case 14 => Remote(VerifyExporter)
    case 15 => Enter(VerifyingExporter, true)
    case 16 => Require(VerifyExporter)
    case 17 => Checkpoint
    case 18 => Remote(RegisterInventory)
    case 19 => Enter(RegisteringInventory, false)
    case 20 => Remote(RequireUrl)
    case 21 => Enter(ConfiguringMonitoring, false)
    case 22 => Remote(ProbePrometheus)
    case 23 => Checkpoint
    case 24 => Enter(Validating, false)
    case 25 => Remote(ReadVersion)
    case 26 => Checkpoint
    case _ => Complete
  }

  /**
   What a remote call comes back with. `current` is read by the installation step alone, when an exporter answers:
   no version is configured, or the configured one is already there.
   */
  datatype Reply = Answer(ok: bool, current: bool) | Raises(name: string)

  datatype Ending = Completes | Fails(rollback: bool) | LeavesTerminal

  /** Before an instruction, between refresh and commit of a transition, inside `_fail`, or over. */
  datatype Stage = Ready | Storing(mine: Row) | Failing(code: Code) | Done(ending: Ending)

  /** `ok` and `installed` are locals of `run`; `passed`, `connected`, `scripts` and `writes` record what it did. */
  datatype Worker = Worker(
    pc: nat,
    stage: Stage,
    seen: Row,
    ok: bool,
    installed: bool,
    passed: set<Call>,
    connected: bool,
    scripts: nat,
    writes: nat)

  const NEW_WORKER := Worker(0, Ready, CREATED, false, false, {}, false, 0, 0)

  datatype Moved = Moved(row: Row, worker: Worker)

  /** `_transition` up to its commit. */
  function StartTransition(row: Row, w: Worker, step: Step, success: bool): Worker {
    var w := w.(seen := row);
    if Terminal(row.status) then
      w.(stage := Failing(if row.errorCode.Some? then row.errorCode.value else Expiry))
    else if row.cancelRequested then w.(stage := Failing(OperatorCancel))
    else w.(stage := Storing(Entered(row, step, success)))
  }

  /** Does the call start a script on the server? */
  predicate StartsScript(w: Worker, call: Call, reply: Reply) {
    call.Firewall? || (call.InstallOrUpdate? && !(w.ok && reply.Answer? && reply.current))
  }

  /** What `run` makes of an answer. */
  function Judged(w: Worker, call: Call, ok: bool, current: bool): Worker {
    var passed := w.(pc := w.pc + 1, passed := w.passed + {call});
    match call
    case InstallOrUpdate =>
      if w.ok && current then passed
      else if !ok then w.(stage := Failing(Fault("installer_failed")))
      else passed.(installed := w.installed || !w.ok)
    case RequireUrl => if ok then passed else w.(stage := Failing(Fault("prometheus_not_configured")))
    case ProbePrometheus => if ok then passed else w.(stage := Failing(Fault("prometheus_unavailable")))
    case CheckExporter => passed.(ok := ok)
    case Firewall => if ok then passed.(ok := true) else w.(pc := w.pc + 1, ok := false)
    case VerifyExporter => if ok then passed.(ok := true) else w.(pc := w.pc + 1, ok := false)
    case _ => passed
  }

  function AfterCall(w: Worker, call: Call, reply: Reply): Worker {
    var w := w.(connected := w.connected || call.Connect?,
                scripts := w.scripts + if StartsScript(w, call, reply) then 1 else 0);
    match reply
    case Raises(name) => w.(stage := Failing(Fault(name)))
    case Answer(ok, current) => Judged(w, call, ok, current)
  }

  /** `_fail`. */
  function FailStep(row: Row, w: Worker, code: Code): Moved {
    if AlreadySettled(w.seen) then Moved(row, w.(stage := Done(LeavesTerminal)))
    else
      var mine := FailedWith(w.seen, code, w.installed);
      Moved(Merge(row, w.seen, mine), w.(seen := mine, stage := Done(Fails(w.installed)), writes := w.writes + 1))
  }

  function FaultOf(call: Call): Code {
    Fault(if call.Firewall? then "firewall_failed" else "exporter_unhealthy")
  }

  function ReadyStep(row: Row, w: Worker, instr: Instr, reply: Reply): Moved {
    match instr
    case Load =>
      var w := w.(seen := row);
      if reply == Answer(true, true) || reply == Answer(true, false) then Moved(row, w.(pc := 1))
      else Moved(row, w.(stage := Failing(Fault("internal_error"))))
    case Enter(step, checked) => Moved(row, StartTransition(row, w, step, !checked || w.ok))
    case Checkpoint =>
      var w := w.(seen := row);
      Moved(row, if row.cancelRequested then w.(stage := Failing(OperatorCancel)) else w.(pc := w.pc + 1))
    case Remote(call) => Moved(row, AfterCall(w, call, reply))
    case Require(call) => Moved(row, if w.ok then w.(pc := w.pc + 1) else w.(stage := Failing(FaultOf(call))))
    case Complete =>
      var mine := Finished(w.seen);
      Moved(Merge(row, w.seen, mine), w.(seen := mine, stage := Done(Completes), writes := w.writes + 1))
  }

  function WorkerStep(row: Row, w: Worker, reply: Reply): Moved
    requires w.pc <= COMPLETE
  {
    match w.stage
    case Ready => ReadyStep(row, w, Program(w.pc), reply)
    case Storing(mine) =>
      Moved(Merge(row, w.seen, mine), w.(seen := mine, stage := Ready, pc := w.pc + 1, writes := w.writes + 1))
    case Failing(code) => FailStep(row, w, code)
    case Done(_) => Moved(row, w)
  }

  // ----- Requests and rollback tasks -----

  datatype Kind = CancelJob | RetryJob | AskForRollback | RemoveServer | Poll

  /** A request reads the row; it may then commit an expiry, and then the change it was made for. */
  datatype Request = Reading(kind: Kind) | Expiring(kind: Kind, seen: Row) | Committing(kind: Kind, seen: Row) | Answered

  predicate Recovers(kind: Kind) {
    kind.CancelJob? || kind.RetryJob? || kind.Poll?
  }

  predicate Accepts(kind: Kind, seen: Row) {
    match kind
    case CancelJob => !Terminal(seen.status)
    case RemoveServer => !Terminal(seen.status)
    case RetryJob => Terminal(seen.status) || seen.status.Pending?
    case AskForRollback => seen.status.Failed? || seen.status.RollbackRequired? || seen.status.Cancelled?
    case Poll => false
  }

  function Decided(kind: Kind, seen: Row): Request {
    if Accepts(kind, seen) then Committing(kind, seen) else Answered
  }

  function Intended(kind: Kind, seen: Row): Row {
    match kind
    case CancelJob => CancelledBy(seen)
    case RemoveServer => CancelledBy(seen)
    case RetryJob => Retried(seen)
    case AskForRollback => RollbackAsked(seen)
    case Poll => seen
  }

  datatype Rollback = Starting | Undoing(seen: Row) | Over

  datatype UndoReply = Removed(ok: bool) | SshFails | Crashes

  /** The row and the request after one step of the request. */
  datatype Served = Served(row: Row, request: Request)

  function RequestStep(row: Row, r: Request, overdue: bool): Served {
    match r
    case Reading(kind) =>
      if Recovers(kind) && overdue && !Terminal(row.status) then Served(row, Expiring(kind, row))
      else Served(row, Decided(kind, row))
    case Expiring(kind, seen) => Served(Merge(row, seen, Expired(seen)), Decided(kind, Expired(seen)))
    case Committing(kind, seen) => Served(Merge(row, seen, Intended(kind, seen)), Answered)
    case Answered => Served(row, r)
  }

  datatype Undone = Undone(row: Row, task: Rollback)

  function UndoStep(row: Row, u: Rollback, reply: UndoReply): Undone {
    match u
    case Starting => Undone(row, Undoing(row))
    case Undoing(seen) =>
      (match reply
       case Removed(ok) => Undone(Merge(row, seen, RolledBack(seen, ok)), Over)
       case SshFails => Undone(Merge(row, seen, RollbackBroken(seen)), Over)
       case Crashes => Undone(row, Over))
    case Over => Undone(row, u)
  }

  // ----- The system -----

  datatype System = System(row: Row, workers: seq<Worker>, requests: seq<Request>, undos: seq<Rollback>)

  /** The job as `create_server_and_onboarding` leaves it, with its background task. */
  const START := System(CREATED, [NEW_WORKER], [], [])

  datatype Event =
    | Arrive(kind: Kind)
    | Work(id: nat, reply: Reply)
    | Serve(id: nat, overdue: bool)
    | Undo(id: nat, undo: UndoReply)

  predicate InRange(s: System) {
    forall i :: 0 <= i < |s.workers| ==> s.workers[i].pc <= COMPLETE
  }

  function Next(s: System, e: Event): System
    requires InRange(s)
  {
    match e
    case Arrive(kind) => s.(requests := s.requests + [Reading(kind)])
    case Work(id, reply) =>
      if id >= |s.workers| then s
      else
        var m := WorkerStep(s.row, s.workers[id], reply);
        s.(row := m.row, workers := s.workers[id := m.worker])
    case Serve(id, overdue) =>
      if id >= |s.requests| then s
      else
        var r := s.requests[id];
        var served := RequestStep(s.row, r, overdue);
        System(served.row,
               if r.Committing? && r.kind.RetryJob? then s.workers + [NEW_WORKER] else s.workers,
               s.requests[id := served.request],
               if r.Committing? && r.kind.AskForRollback? then s.undos + [Starting] else s.undos)
    case Undo(id, reply) =>
      if id >= |s.undos| then s
      else
        var u := UndoStep(s.row, s.undos[id], reply);
        s.(row := u.row, undos := s.undos[id := u.task])
  }

  /** The call that instruction must have completed with success before the next one. */
  function Owed(instr: Instr): Option<Call> {
    match instr
    case Remote(call) =>
      if call.CheckExporter? || call.InstallOrUpdate? || call.Firewall? || call.VerifyExporter? then None else Some(call)
    case Require(call) => Some(call)
    case _ => None
  }

  /** The call whose answer the local `ok` still holds. */
  function Answering(pc: nat): Option<Call>
    requires pc <= COMPLETE
  {
    if pc == 0 then None
    else
      match Program(pc - 1)
      case Remote(call) => if call.Firewall? || call.VerifyExporter? then Some(call) else None
      case Enter(_, _) => Answering(pc - 1)
      case _ => None
  }

  /** Every call owed before `pc` has passed. */
  predicate Evidence(pc: nat, passed: set<Call>)
    requires pc <= COMPLETE
  {
    pc == 0 || (Evidence(pc - 1, passed) && (Owed(Program(pc - 1)).Some? ==> Owed(Program(pc - 1)).value in passed))
  }

  /** What every worker is like in every state that a run reaches. */
  ghost predicate WellFormed(w: Worker) {
    && w.pc <= COMPLETE
    && (w.stage.Storing? ==>
          && Program(w.pc).Enter?
          && w.stage.mine == Entered(w.seen, Program(w.pc).step, !Program(w.pc).checked || w.ok)
          && !Terminal(w.seen.status))
    && (w.stage == Done(Completes) ==> w.pc == COMPLETE)
    && (w.stage.Done? && w.stage.ending.Fails? ==> w.stage.ending.rollback == w.installed)
    && (w.stage == Done(LeavesTerminal) ==> AlreadySettled(w.seen))
    && (w.ok && Answering(w.pc).Some? ==> Answering(w.pc).value in w.passed)
    && Evidence(w.pc, w.passed)
  }

  ghost predicate Sound(s: System) {
    forall i :: 0 <= i < |s.workers| ==> WellFormed(s.workers[i])
  }

  lemma {:induction false} MoreEvidence(pc: nat, passed: set<Call>, more: set<Call>)
    requires pc <= COMPLETE && Evidence(pc, passed) && passed <= more
    ensures Evidence(pc, more)
  {
    hide Program;
    if pc > 0 {
      MoreEvidence(pc - 1, passed, more);
    }
  }

  /** The two demands of the program are made on the answer that `ok` holds, and nothing follows its last line. */
  lemma {:induction false} ProgramShape(pc: nat)
    requires pc <= COMPLETE
    ensures Program(pc).Require? ==> Answering(pc) == Some(Program(pc).call)
    ensures Program(pc).Complete? <==> pc == COMPLETE
    ensures Program(pc).Load? <==> pc == 0
  {
  }

  lemma {:induction false} JudgedEffect(w: Worker, call: Call, ok: bool, current: bool)
    requires w.stage.Ready?
    ensures
      var w' := Judged(w, call, ok, current);
      && w'.seen == w.seen && w'.writes == w.writes && w'.scripts == w.scripts && w.passed <= w'.passed
      && if w'.stage.Failing? then
           w'.pc == w.pc && w'.ok == w.ok && w'.installed == w.installed
         else
           && w'.stage.Ready? && w'.pc == w.pc + 1
           && (Owed(Remote(call)).Some? || ((call.Firewall? || call.VerifyExporter?) && w'.ok) ==> call in w'.passed)
  {
  }

  /** What a call does to a worker, whichever call it is. */
  lemma {:induction false} CallEffect(w: Worker, call: Call, reply: Reply)
    requires w.stage.Ready?
    ensures
      var w' := AfterCall(w, call, reply);
      && w'.seen == w.seen && w'.writes == w.writes && w.passed <= w'.passed
      && w'.scripts == w.scripts + (if StartsScript(w, call, reply) then 1 else 0)
      && if w'.stage.Failing? then
           w'.pc == w.pc && w'.ok == w.ok && w'.installed == w.installed
         else
           && w'.stage.Ready? && w'.pc == w.pc + 1
           && (Owed(Remote(call)).Some? || ((call.Firewall? || call.VerifyExporter?) && w'.ok) ==> call in w'.passed)
  {
    hide StartsScript, Judged;
    if reply.Answer? {
      var dialled := w.(connected := w.connected || call.Connect?,
                        scripts := w.scripts + if StartsScript(w, call, reply) then 1 else 0);
      JudgedEffect(dialled, call, reply.ok, reply.current);
    }
  }

  lemma {:induction false} CallKeepsForm(w: Worker, call: Call, reply: Reply)
    requires WellFormed(w) && w.stage.Ready? && Program(w.pc) == Remote(call) && w.pc < COMPLETE
    ensures WellFormed(AfterCall(w, call, reply))
  {
    hide Program, Entered, AfterCall;
    CallEffect(w, call, reply);
    MoreEvidence(w.pc, w.passed, AfterCall(w, call, reply).passed);
  }

  lemma {:induction false} StartKeepsForm(row: Row, w: Worker, step: Step, checked: bool)
    requires WellFormed(w) && w.stage.Ready? && Program(w.pc) == Enter(step, checked)
    ensures WellFormed(StartTransition(row, w, step, !checked || w.ok))
  {
  }

  lemma {:induction false} ReadyWorkerKeepsForm(row: Row, w: Worker, reply: Reply)
    requires WellFormed(w)
    requires w.stage.Ready?
    ensures WellFormed(WorkerStep(row, w, reply).worker) && WorkerStep(row, w, reply).worker.pc <= COMPLETE
  {
    hide AfterCall, StartTransition, Program, Entered, Finished, FailedWith, Merge, AlreadySettled;
    ProgramShape(w.pc);
    if Program(w.pc).Remote? {
      CallKeepsForm(w, Program(w.pc).call, reply);
    }
    if Program(w.pc).Enter? {
      StartKeepsForm(row, w, Program(w.pc).step, Program(w.pc).checked);
    }
  }

  lemma {:induction false} WorkerKeepsForm(row: Row, w: Worker, reply: Reply)
    requires WellFormed(w)
    ensures WellFormed(WorkerStep(row, w, reply).worker) && WorkerStep(row, w, reply).worker.pc <= COMPLETE
  {
    hide ReadyStep, AfterCall, StartTransition, Program, Entered, Finished, FailedWith, Merge, AlreadySettled;
    ProgramShape(w.pc);
    if w.stage.Ready? {
      ReadyWorkerKeepsForm(row, w, reply);
    }
  }

  lemma {:induction false} StepKeepsForm(s: System, e: Event)
    requires Sound(s)
    ensures InRange(s) && Sound(Next(s, e))
  {
    assert InRange(s);
    if e.Work? && e.id < |s.workers| {
      WorkerKeepsForm(s.row, s.workers[e.id], e.reply);
    }
  }

  lemma StartIsSound()
    ensures InRange(START) && Sound(START)
  {
  }

  /** The state after the first `n` events. */
  function Run(s: System, events: seq<Event>, n: nat): (s': System)
    requires InRange(s) && Sound(s) && n <= |events|
    ensures InRange(s') && Sound(s')
  {
    if n == 0 then s
    else
      var before := Run(s, events, n - 1);
      StepKeepsForm(before, events[n - 1]);
      assert InRange(Next(before, events[n - 1]));
      Next(before, events[n - 1])
  }
}
