/** What the locals of a worker say about the answers that it was given, over every run of the onboarding protocol. */
module OnboardingReplies {
  import opened Wrappers
  import opened OnboardingRow
  import opened OnboardingJob
  import opened OnboardingSafety

  /** The answers that a worker was given, by call. */
  type Answers = map<Call, Reply>

  /** Worker `w` waits for the answer to the call. */
  predicate Waits(w: Worker, call: Call) {
    w.stage.Ready? && w.pc <= COMPLETE && Program(w.pc) == Remote(call)
  }

  /** The answers after one more step of the worker. */
  function Extended(w: Worker, given: Answers, reply: Reply): Answers
    requires w.pc <= COMPLETE
  {
    if w.stage.Ready? && Program(w.pc).Remote? then given[Program(w.pc).call := reply] else given
  }

  /** The answers that worker `i` was given among the first `n` events, the last one to each call. */
  ghost function Served(s: System, events: seq<Event>, n: nat, i: nat): Answers
    requires InRange(s) && Sound(s) && n <= |events|
  {
    if n == 0 then map[]
    else
      var before, e, given := Run(s, events, n - 1), events[n - 1], Served(s, events, n - 1, i);
      if e.Work? && e.id == i && i < |before.workers| then Extended(before.workers[i], given, e.reply) else given
  }

  predicate Answered(given: Answers, call: Call) {
    call in given && given[call].Answer?
  }

  predicate Good(given: Answers, call: Call) {
    Answered(given, call) && given[call].ok
  }

  predicate Bad(given: Answers, call: Call) {
    Answered(given, call) && !given[call].ok
  }

  /** The line of the program that makes the call. */
  function LineOf(call: Call): (pc: nat)
    ensures pc < COMPLETE && Program(pc) == Remote(call)
  {
    match call
    case Connect => 2
    case Precheck => 5
    case CheckExporter => 7
    case InstallOrUpdate => 9
    case Firewall => 11
    case VerifyExporter => 14
    case RegisterInventory => 18
    case RequireUrl => 20
    case ProbePrometheus => 22
    case ReadVersion => 25
  }

  /** The exporter answered and is at the configured version, or none is configured: no script was started for it. */
  predicate UpToDate(given: Answers) {
    Good(given, CheckExporter) && Answered(given, InstallOrUpdate) && given[InstallOrUpdate].current
  }

  /** The exporter did not answer, and the script that installs it succeeded. */
  predicate InstalledIt(given: Answers) {
    Bad(given, CheckExporter) && Good(given, InstallOrUpdate)
  }

  /** The answer lets the program go on behind the call, with success. */
  predicate Passes(given: Answers, call: Call) {
    match call
    case InstallOrUpdate => UpToDate(given) || Good(given, InstallOrUpdate)
    case Firewall => Good(given, Firewall)
    case VerifyExporter => Good(given, VerifyExporter)
    case RequireUrl => Good(given, RequireUrl)
    case ProbePrometheus => Good(given, ProbePrometheus)
    case _ => Answered(given, call)
  }

  /** Scripts that the calls start: one to install or update the exporter, if any, and one for the firewall. */
  function ScriptsOf(given: Answers): nat {
    (if InstallOrUpdate in given && !UpToDate(given) then 1 else 0) + (if Firewall in given then 1 else 0)
  }

  /** Every call before the worker's line was answered, and no call behind it was made. */
  ghost predicate InProgramOrder(w: Worker, given: Answers) {
    forall call: Call ::
      && (LineOf(call) < w.pc ==> Answered(given, call))
      && (w.pc < LineOf(call) || (w.pc == LineOf(call) && (w.stage.Ready? || w.stage.Storing?)) ==> call !in given)
  }

  /** The local `ok` is the last answer of a check. */
  predicate Remembers(w: Worker, given: Answers) {
    && (7 < w.pc <= 11 ==> (w.ok <==> Good(given, CheckExporter)))
    && (11 < w.pc <= 14 ==> (w.ok <==> Good(given, Firewall)))
    && (14 < w.pc ==> (w.ok <==> Good(given, VerifyExporter)))
  }

  /** What the locals and the records of the worker mean. */
  ghost predicate Ledger(w: Worker, given: Answers) {
    && (w.installed <==> InstalledIt(given))
    && (forall call: Call :: call in w.passed <==> Passes(given, call))
    && (w.connected <==> Connect in given)
    && w.scripts == ScriptsOf(given)
  }

  /** Every call before the worker's line passed, but for the two checks that are demanded later. */
  ghost predicate PassedSoFar(w: Worker) {
    forall call: Call :: LineOf(call) < w.pc && !call.Firewall? && !call.VerifyExporter? ==> call in w.passed
  }

  ghost predicate Told(w: Worker, given: Answers) {
    InProgramOrder(w, given) && PassedSoFar(w) && Remembers(w, given) && Ledger(w, given)
  }

  // ----- One step -----

  lemma {:induction false} LinesDiffer(a: Call, b: Call)
    ensures LineOf(a) == LineOf(b) ==> a == b
  {
    hide Program, LineOf;
  }

  lemma {:induction false} OrderStays(w: Worker, given: Answers, call: Call, reply: Reply)
    requires Waits(w, call) && w.pc < COMPLETE && InProgramOrder(w, given)
    ensures InProgramOrder(AfterCall(w, call, reply), given[call := reply])
  {
    CallEffect(w, call, reply);
    var w', given' := AfterCall(w, call, reply), given[call := reply];
    RaisedFails(w, call, reply);
    hide AfterCall, Program;
    forall c: Call
      ensures LineOf(c) < w'.pc ==> Answered(given', c)
      ensures w'.pc < LineOf(c) || (w'.pc == LineOf(c) && (w'.stage.Ready? || w'.stage.Storing?)) ==> c !in given'
    {
      assert Program(LineOf(call)) == Remote(call);
      LinesDiffer(call, c);
    }
  }

  lemma RaisedFails(w: Worker, call: Call, reply: Reply)
    ensures reply.Raises? ==> AfterCall(w, call, reply).stage.Failing?
  {
  }

  lemma {:induction false} PassingGoesOn(w: Worker, call: Call, reply: Reply)
    requires Waits(w, call) && w.pc < COMPLETE && PassedSoFar(w)
    ensures PassedSoFar(AfterCall(w, call, reply))
  {
    CallEffect(w, call, reply);
    GoingOnPasses(w, call, reply);
    SameLine(w.pc, call);
    var w' := AfterCall(w, call, reply);
    hide AfterCall, Program;
    forall c: Call | LineOf(c) < w'.pc && !c.Firewall? && !c.VerifyExporter?
      ensures c in w'.passed
    {
      LinesDiffer(call, c);
    }
  }

  lemma GoingOnPasses(w: Worker, call: Call, reply: Reply)
    ensures
      var w' := AfterCall(w, call, reply);
      w'.pc == w.pc + 1 && !call.Firewall? && !call.VerifyExporter? ==> call in w'.passed
  {
  }

  lemma {:induction false} MemoryStays(w: Worker, given: Answers, call: Call, reply: Reply)
    requires Waits(w, call) && w.pc < COMPLETE && Remembers(w, given)
    ensures Remembers(AfterCall(w, call, reply), given[call := reply])
  {
    hide StartsScript;
    assert Program(LineOf(call)) == Remote(call);
    SameLine(w.pc, call);
  }

  lemma SameLine(pc: nat, call: Call)
    requires pc < COMPLETE && Program(pc) == Remote(call)
    ensures pc == LineOf(call)
  {
  }

  /** Nothing but the call itself decides whether it passes, except that the check counts for the installation. */
  lemma {:induction false} PassingStays(given: Answers, call: Call, reply: Reply, c: Call)
    requires c != call && (call.CheckExporter? ==> InstallOrUpdate !in given)
    ensures Passes(given[call := reply], c) == Passes(given, c)
  {
  }

  lemma {:induction false} PassedIsRecorded(w: Worker, given: Answers, call: Call, reply: Reply)
    requires Waits(w, call) && w.pc < COMPLETE && Remembers(w, given) && call !in given
    requires (forall c: Call :: c in w.passed <==> Passes(given, c))
    requires call.CheckExporter? ==> InstallOrUpdate !in given
    requires call.InstallOrUpdate? ==> CheckExporter in given
    ensures forall c: Call :: c in AfterCall(w, call, reply).passed <==> Passes(given[call := reply], c)
  {
    SameLine(w.pc, call);
    var w', given' := AfterCall(w, call, reply), given[call := reply];
    assert w'.passed == w.passed || w'.passed == w.passed + {call};
    assert call in w'.passed <==> Passes(given', call);
    hide AfterCall;
    forall c: Call
      ensures c in w'.passed <==> Passes(given', c)
    {
      if c != call {
        PassingStays(given, call, reply, c);
      }
    }
  }

  lemma {:induction false} LedgerStays(w: Worker, given: Answers, call: Call, reply: Reply)
    requires Waits(w, call) && w.pc < COMPLETE && Remembers(w, given) && Ledger(w, given) && call !in given
    requires call.CheckExporter? ==> InstallOrUpdate !in given
    requires call.InstallOrUpdate? ==> CheckExporter in given && Answered(given, CheckExporter)
    ensures Ledger(AfterCall(w, call, reply), given[call := reply])
  {
    PassedIsRecorded(w, given, call, reply);
    SameLine(w.pc, call);
    LocalsOf(w, call, reply);
    hide AfterCall, Passes;
  }

  /** What a call does to the three other records. */
  lemma LocalsOf(w: Worker, call: Call, reply: Reply)
    ensures
      var w' := AfterCall(w, call, reply);
      && (w'.installed <==> w.installed || (call.InstallOrUpdate? && !w.ok && reply.Answer? && reply.ok))
      && (w'.connected <==> w.connected || call.Connect?)
      && w'.scripts == w.scripts + (if call.Firewall? || (call.InstallOrUpdate? && !(w.ok && reply.Answer? && reply.current))
                                    then 1 else 0)
  {
  }

  lemma {:induction false} CallKeepsTold(w: Worker, given: Answers, call: Call, reply: Reply)
    requires Waits(w, call) && w.pc < COMPLETE && Told(w, given)
    ensures Told(AfterCall(w, call, reply), given[call := reply])
  {
    SameLine(w.pc, call);
    OrderStays(w, given, call, reply);
    MemoryStays(w, given, call, reply);
    PassingGoesOn(w, call, reply);
    assert InProgramOrder(w, given);
    assert LineOf(CheckExporter) < LineOf(InstallOrUpdate);
    LedgerStays(w, given, call, reply);
    hide AfterCall, Ledger, Remembers, PassedSoFar;
  }

  /** The worker moves without a call: it stays on its line or leaves one that makes no call. */
  predicate Walks(w: Worker, w': Worker) {
    && w'.ok == w.ok && w'.installed == w.installed && w'.passed == w.passed && w'.connected == w.connected
    && w'.scripts == w.scripts
    && (|| (w'.pc == w.pc && (w.stage.Ready? || w.stage.Storing? || !(w'.stage.Ready? || w'.stage.Storing?)))
        || (w.pc < COMPLETE && w'.pc == w.pc + 1 && !Program(w.pc).Remote?))
  }

  lemma {:induction false} WalkKeepsTold(w: Worker, w': Worker, given: Answers)
    requires Told(w, given) && Walks(w, w')
    ensures Told(w', given)
  {
    hide Answered, Good, LineOf;
    forall c: Call
      ensures LineOf(c) < w'.pc ==> Answered(given, c)
      ensures w'.pc < LineOf(c) || (w'.pc == LineOf(c) && (w'.stage.Ready? || w'.stage.Storing?)) ==> c !in given
      ensures LineOf(c) < w'.pc && !c.Firewall? && !c.VerifyExporter? ==> c in w'.passed
    {
      assert Program(LineOf(c)) == Remote(c);
    }
  }

  lemma {:induction false} StepKeepsTold(row: Row, w: Worker, given: Answers, reply: Reply)
    requires WellFormed(w) && Told(w, given)
    ensures Told(WorkerStep(row, w, reply).worker, Extended(w, given, reply))
  {
    hide AfterCall, Evidence, Answering, Ledger, InProgramOrder, PassedSoFar, Remembers, Program, Merge, AlreadySettled;
    ProgramShape(w.pc);
    WorkerKeepsForm(row, w, reply);
    if w.stage.Ready? && Program(w.pc).Remote? {
      CallKeepsTold(w, given, Program(w.pc).call, reply);
    } else {
      WalkKeepsTold(w, WorkerStep(row, w, reply).worker, given);
    }
  }

  // ----- Over runs -----

  lemma NewWorkerIsTold()
    ensures Told(NEW_WORKER, map[])
  {
  }

  /** In every reachable state the locals and records of every worker mean what they say of the answers it was given. */
  lemma {:induction false} WorkersAreTold(events: seq<Event>, n: nat, i: nat)
    requires n <= |events| && InRange(START) && Sound(START) && i < |Run(START, events, n).workers|
    ensures Told(Run(START, events, n).workers[i], Served(START, events, n, i))
  {
    hide Next, Told, WellFormed, Extended;
    NewWorkerIsTold();
    if n > 0 {
      var before, e := Run(START, events, n - 1), events[n - 1];
      WorkerMoves(before, e, i);
      if i < |before.workers| {
        WorkersAreTold(events, n - 1, i);
        if e.Work? && e.id == i {
          StepKeepsTold(before.row, before.workers[i], Served(START, events, n - 1, i), e.reply);
        }
      } else {
        NothingServedYet(events, n - 1, i);
      }
    }
  }

  lemma {:induction false} NothingServedYet(events: seq<Event>, n: nat, i: nat)
    requires n <= |events| && InRange(START) && Sound(START) && |Run(START, events, n).workers| <= i
    ensures Served(START, events, n, i) == map[]
  {
    hide Next, WellFormed, Extended;
    if n > 0 {
      WorkerMoves(Run(START, events, n - 1), events[n - 1], i);
      NothingServedYet(events, n - 1, i);
    }
  }

  /** `installed` is set exactly when the exporter did not answer its check and the script that installs it succeeded. */
  lemma {:induction false} InstalledFlagIsExact(events: seq<Event>, n: nat, i: nat)
    requires n <= |events| && InRange(START) && Sound(START) && i < |Run(START, events, n).workers|
    ensures
      var given := Served(START, events, n, i);
      Run(START, events, n).workers[i].installed <==>
      && CheckExporter in given && given[CheckExporter].Answer? && !given[CheckExporter].ok
      && InstallOrUpdate in given && given[InstallOrUpdate].Answer? && given[InstallOrUpdate].ok
  {
    hide InProgramOrder, Remembers, Passes, ScriptsOf;
    WorkersAreTold(events, n, i);
  }

  /**
   A worker that fails asks for a rollback exactly when it installed the exporter: that is what it commits, and how it
   ends; no other step of a worker writes that status. In particular one whose check was good never does.
   */
  lemma {:induction false} RollbackIffInstalled(events: seq<Event>, n: nat, i: nat, reply: Reply)
    requires n <= |events| && InRange(START) && Sound(START) && i < |Run(START, events, n).workers|
    ensures
      var s, given := Run(START, events, n), Served(START, events, n, i);
      var w, m := s.workers[i], WorkerStep(s.row, s.workers[i], reply);
      && (!w.stage.Done? && m.worker.stage.Done? && m.worker.stage.ending.Fails? ==>
            && m.worker.stage.ending.rollback == InstalledIt(given)
            && m.worker.seen.status == if InstalledIt(given) then RollbackRequired else Failed)
      && (m.row.status.RollbackRequired? && !s.row.status.RollbackRequired? ==> InstalledIt(given))
  {
    hide AfterCall, Evidence, Answering, Run, InProgramOrder, Remembers, InstalledIt, Passes, ScriptsOf, Program;
    WorkersAreTold(events, n, i);
    var w := Run(START, events, n).workers[i];
    ProgramShape(w.pc);
    if w.stage.Ready? && Program(w.pc).Remote? {
      CallEffect(w, Program(w.pc).call, reply);
    }
  }

  /** Every answer that a complete job demands. */
  ghost predicate AllAnswered(given: Answers) {
    && (forall call: Call :: Answered(given, call))
    && Good(given, Firewall) && Good(given, VerifyExporter) && Good(given, RequireUrl) && Good(given, ProbePrometheus)
    && (Good(given, InstallOrUpdate) || UpToDate(given))
  }

  /** A worker that completed was given, in its run, every answer that the job demands. */
  lemma {:induction false} CompletionWasAnswered(events: seq<Event>, n: nat, i: nat)
    requires n <= |events| && InRange(START) && Sound(START) && i < |Run(START, events, n).workers|
    requires Run(START, events, n).workers[i].stage == Done(Completes)
    ensures AllAnswered(Served(START, events, n, i))
  {
    hide Run, Told, Served, AllAnswered, Evidence, Answering;
    WorkersAreTold(events, n, i);
    FinishedIsAnswered(Run(START, events, n).workers[i], Served(START, events, n, i));
  }

  lemma {:induction false} FinishedIsAnswered(w: Worker, given: Answers)
    requires WellFormed(w) && w.stage == Done(Completes) && Told(w, given)
    ensures AllAnswered(given)
  {
    hide Answered, Remembers, ScriptsOf, Program;
    EvidenceAt(COMPLETE, 14, w.passed);
    EvidenceAt(COMPLETE, 17, w.passed);
    DemandsOf();
    assert forall call: Call :: LineOf(call) < COMPLETE;
    hide LineOf;
    forall call: Call
      ensures Passes(given, call)
    {
      assert call in w.passed;
    }
    assert Passes(given, RequireUrl) && Passes(given, ProbePrometheus) && Passes(given, InstallOrUpdate);
    assert Passes(given, Firewall) && Passes(given, VerifyExporter);
  }

  /** The two demands of the program. */
  lemma DemandsOf()
    ensures Owed(Program(13)) == Some(Firewall) && Owed(Program(16)) == Some(VerifyExporter)
  {
  }

  lemma {:induction false} EvidenceAt(pc: nat, line: nat, passed: set<Call>)
    requires 0 < line <= pc <= COMPLETE && Evidence(pc, passed)
    ensures Owed(Program(line - 1)).Some? ==> Owed(Program(line - 1)).value in passed
  {
    if line < pc {
      EvidenceAt(pc - 1, line, passed);
    }
  }

  /** Every script is counted: one to install or update, unless none was needed, and one for the firewall. */
  lemma {:induction false} ScriptsAreCounted(events: seq<Event>, n: nat, i: nat)
    requires n <= |events| && InRange(START) && Sound(START) && i < |Run(START, events, n).workers|
    ensures
      var w, given := Run(START, events, n).workers[i], Served(START, events, n, i);
      && w.scripts ==
         (if InstallOrUpdate !in given then 0
          else if Good(given, CheckExporter) && given[InstallOrUpdate].Answer? && given[InstallOrUpdate].current then 0
          else 1) + (if Firewall in given then 1 else 0)
      && (w.connected <==> Connect in given)
  {
    hide InProgramOrder, Remembers, Passes;
    WorkersAreTold(events, n, i);
  }

  /** Every write is counted: a step of a worker that leaves its count alone leaves the row alone. */
  lemma {:induction false} WritesAreCounted(row: Row, w: Worker, reply: Reply)
    requires w.pc <= COMPLETE
    ensures
      var m := WorkerStep(row, w, reply);
      && w.writes <= m.worker.writes <= w.writes + 1
      && (m.row != row ==> m.worker.writes == w.writes + 1)
  {
    hide Program, AfterCall, StartTransition, Merge, Finished, FailedWith, AlreadySettled;
    if w.stage.Ready? && Program(w.pc).Remote? {
      CallEffect(w, Program(w.pc).call, reply);
    }
    if w.stage.Ready? && Program(w.pc).Enter? {
      StartWritesNothing(row, w, Program(w.pc).step, !Program(w.pc).checked || w.ok);
    }
  }

  lemma StartWritesNothing(row: Row, w: Worker, step: Step, success: bool)
    ensures StartTransition(row, w, step, success).writes == w.writes
  {
  }

  // ----- What a step records as its success -----

  /** The check whose answer a transition takes its success from went well, or there is none. */
  predicate StepSucceeds(given: Answers, step: Step) {
    match step
    case InstallingExporter => Good(given, CheckExporter)
    case ConfiguringFirewall => Good(given, Firewall)
    case VerifyingExporter => Good(given, VerifyExporter)
    case _ => true
  }

  /** The last successful step moves on with every transition but those that follow a bad check. */
  lemma {:induction false} StoredStepTellsTheCheck(events: seq<Event>, n: nat, i: nat)
    requires n <= |events| && InRange(START) && Sound(START) && i < |Run(START, events, n).workers|
    requires Run(START, events, n).workers[i].stage.Storing?
    ensures
      var w := Run(START, events, n).workers[i];
      var mine, given := w.stage.mine, Served(START, events, n, i);
      && mine.status == Running(mine.currentStep)
      && mine.lastSuccessful == if StepSucceeds(given, mine.currentStep) then Some(mine.currentStep) else w.seen.lastSuccessful
  {
    hide Run, Ledger, Served, InProgramOrder, PassedSoFar, Evidence, Answering, Good;
    WorkersAreTold(events, n, i);
    CheckedSteps(Run(START, events, n).workers[i].pc);
  }

  /** Where the program enters a step whose success is checked. */
  lemma CheckedSteps(pc: nat)
    requires pc <= COMPLETE && Program(pc).Enter?
    ensures Program(pc).checked <==> pc == 8 || pc == 12 || pc == 15
    ensures pc == 8 <==> Program(pc).step.InstallingExporter?
    ensures pc == 12 <==> Program(pc).step.ConfiguringFirewall?
    ensures pc == 15 <==> Program(pc).step.VerifyingExporter?
  {
  }

  // ----- Why a worker fails -----

  /** The error code of a worker that failed on its line, read from what it was given and from the row that it saw there. */
  predicate Explains(w: Worker, given: Answers, code: Code)
    requires w.pc <= COMPLETE
  {
    match Program(w.pc)
    case Load => code == Fault("internal_error")
    case Enter(_, _) =>
      if w.seen.status.Pending? || w.seen.status.Running? then w.seen.cancelRequested && code == OperatorCancel
      else if w.seen.errorCode.Some? then code == w.seen.errorCode.value
      else code == Expiry
    case Checkpoint => w.seen.cancelRequested && code == OperatorCancel
    case Remote(call) =>
      && call in given
      && (match given[call]
          case Raises(name) => code == Fault(name)
          case Answer(ok, _) =>
            && !ok
            && (call.InstallOrUpdate? ==> code == Fault("installer_failed"))
            && (call.RequireUrl? ==> code == Fault("prometheus_not_configured"))
            && (call.ProbePrometheus? ==> code == Fault("prometheus_unavailable"))
            && (call.InstallOrUpdate? || call.RequireUrl? || call.ProbePrometheus?))
    case Require(call) =>
      && Bad(given, call)
      && (call.Firewall? ==> code == Fault("firewall_failed"))
      && (call.VerifyExporter? ==> code == Fault("exporter_unhealthy"))
    case Complete => false
  }

  lemma {:induction false} CallExplains(w: Worker, given: Answers, call: Call, reply: Reply)
    requires Waits(w, call) && w.pc < COMPLETE && AfterCall(w, call, reply).stage.Failing?
    ensures
      var w' := AfterCall(w, call, reply);
      w'.pc == w.pc && Explains(w', given[call := reply], w'.stage.code)
  {
    hide Program;
  }

  lemma {:induction false} FailureBegins(row: Row, w: Worker, given: Answers, reply: Reply)
    requires WellFormed(w) && Told(w, given) && w.stage.Ready?
    ensures
      var w' := WorkerStep(row, w, reply).worker;
      w'.stage.Failing? ==> w'.pc == w.pc && Explains(w', Extended(w, given, reply), w'.stage.code)
  {
    hide AfterCall, Evidence, Answering, Ledger, PassedSoFar, Program;
    ProgramShape(w.pc);
    if Program(w.pc).Remote? {
      var call := Program(w.pc).call;
      if AfterCall(w, call, reply).stage.Failing? {
        CallExplains(w, given, call, reply);
      }
    }
    if Program(w.pc).Require? {
      DemandedIsGiven(w, given);
    }
  }

  /** A demand is made on an answer that was given. */
  lemma {:induction false} DemandedIsGiven(w: Worker, given: Answers)
    requires w.pc < COMPLETE && Program(w.pc).Require? && InProgramOrder(w, given) && Remembers(w, given)
    ensures !w.ok ==> Bad(given, Program(w.pc).call)
    ensures Program(w.pc).call.Firewall? || Program(w.pc).call.VerifyExporter?
  {
    assert LineOf(Firewall) == 11 && LineOf(VerifyExporter) == 14;
    assert w.pc == 13 || w.pc == 16;
    assert Program(13) == Require(Firewall) && Program(16) == Require(VerifyExporter);
  }

  ghost predicate FailsRightly(w: Worker, given: Answers) {
    w.stage.Failing? ==> w.pc <= COMPLETE && Explains(w, given, w.stage.code)
  }

  /** In every reachable state a worker that fails has the code that names its cause. */
  lemma {:induction false} FailureNamesItsCause(events: seq<Event>, n: nat, i: nat)
    requires n <= |events| && InRange(START) && Sound(START) && i < |Run(START, events, n).workers|
    ensures FailsRightly(Run(START, events, n).workers[i], Served(START, events, n, i))
  {
    hide Next, Told, WellFormed, Extended, Explains;
    if n > 0 {
      var before, e := Run(START, events, n - 1), events[n - 1];
      WorkerMoves(before, e, i);
      if i < |before.workers| {
        FailureNamesItsCause(events, n - 1, i);
        WorkersAreTold(events, n - 1, i);
        if e.Work? && e.id == i {
          FailureStep(before.row, before.workers[i], Served(START, events, n - 1, i), e.reply);
        }
      }
    }
  }

  lemma {:induction false} FailureStep(row: Row, w: Worker, given: Answers, reply: Reply)
    requires WellFormed(w) && Told(w, given)
    ensures FailsRightly(WorkerStep(row, w, reply).worker, Extended(w, given, reply))
  {
    hide ReadyStep, Told, Explains;
    if w.stage.Ready? {
      FailureBegins(row, w, given, reply);
    }
  }
}
