/**
 The background task of `run` (app/services/onboarding_service.py) as an object: its locals, its session's copy of the
 row, and one method that executes the next line. Other sessions may change the table between two calls.
 */
module OnboardingWorker {
  import opened OnboardingRow
  import opened OnboardingJob

  class OnboardingWorker {
    const job: ServerOnboarding
    var pc: nat
    var stage: Stage
    var ok: bool
    var installed: bool
    var passed: set<Call>
    var connected: bool
    var scripts: nat
    var writes: nat

    ghost function State(): Worker
      reads this, job
    {
      Worker(pc, stage, job.loaded, ok, installed, passed, connected, scripts, writes)
    }

    /** The session's copy differs from what it loaded only while a step is being stored. */
    ghost predicate Valid()
      reads this, job
    {
      pc <= COMPLETE && job.Mine() == if stage.Storing? then stage.mine else job.loaded
    }

    constructor (table: Table)
      ensures fresh(job) && job.table == table
      ensures Valid() && State() == NEW_WORKER.(seen := table.row)
    {
      job := new ServerOnboarding(table);
      pc, stage, ok, installed, passed, connected, scripts, writes := 0, Ready, false, false, {}, false, 0, 0;
    }

    /** One remote call of the program and what `run` does with its answer. */
    method CallServer(call: Call, reply: Reply)
      requires pc < COMPLETE && stage.Ready?
      modifies this
      ensures State() == AfterCall(old(State()), call, reply)
    {
      if call.Connect? {
        connected := true;
      }
      if call.Firewall? || (call.InstallOrUpdate? && !(ok && reply.Answer? && reply.current)) {
        scripts := scripts + 1;
      }
      if reply.Raises? {
        stage := Failing(Fault(reply.name));
        return;
      }
      hide Judged;
      Judge(call, reply.ok, reply.current);
    }

    method Judge(call: Call, good: bool, current: bool)
      requires pc < COMPLETE && stage.Ready?
      modifies `pc, `stage, `ok, `installed, `passed
      ensures State() == Judged(old(State()), call, good, current)
    {
      match call {
        case InstallOrUpdate =>
          if !(ok && current) {
            if !good {
              stage := Failing(Fault("installer_failed"));
              return;
            }
            installed := installed || !ok;
          }
        case RequireUrl =>
          if !good {
            stage := Failing(Fault("prometheus_not_configured"));
            return;
          }
        case ProbePrometheus =>
          if !good {
            stage := Failing(Fault("prometheus_unavailable"));
            return;
          }
        case CheckExporter =>
          ok := good;
        case Firewall =>
          ok := good;
        case VerifyExporter =>
          ok := good;
        case _ =>
      }
      pc := pc + 1;
      if !((call.Firewall? || call.VerifyExporter?) && !good) {
        passed := passed + {call};
      }
    }

    /** The next line of `run`, up to the next point where other sessions can get in. */
    method Advance(reply: Reply)
      requires Valid() && WellFormed(State())
      modifies this, job, job.table
      ensures Valid() && WellFormed(State())
      ensures Moved(job.table.row, State()) == WorkerStep(old(job.table.row), old(State()), reply)
    {
      hide Merge, Entered, FailedWith, Finished, AfterCall, WellFormed;
      WorkerKeepsForm(job.table.row, State(), reply);
      match stage {
        case Done(_) =>
        case Storing(_) =>
          job.Commit();
          stage, pc, writes := Ready, pc + 1, writes + 1;
        case Failing(code) =>
          var written := job.Fail(code, installed);
          stage := Done(if written then Fails(installed) else LeavesTerminal);
          writes := if written then writes + 1 else writes;
        case Ready =>
          AdvanceReady(reply);
      }
    }

    method AdvanceReady(reply: Reply)
      requires Valid() && stage.Ready?
      modifies this, job, job.table
      ensures pc <= COMPLETE ==> Valid()
      ensures Moved(job.table.row, State()) == ReadyStep(old(job.table.row), old(State()), Program(old(pc)), reply)
    {
      hide Merge, Entered, FailedWith, Finished, AfterCall, Program;
      ProgramShape(pc);
      match Program(pc) {
        case Load =>
          job.Refresh();
          if reply.Answer? && reply.ok {
            pc := 1;
          } else {
            stage := Failing(Fault("internal_error"));
          }
        case Enter(step, checked) =>
          var raised := job.BeginTransition(step, !checked || ok);
          stage := if raised.Some? then Failing(raised.value)
                   else Storing(Row(job.status, job.currentStep, job.progressPercent, job.cancelRequested,
                                    job.lastErrorCode, job.lastSuccessfulStep, job.retryCount));
        case Checkpoint =>
          var raised := job.CheckCancel();
          if raised.Some? {
            stage := Failing(raised.value);
          } else {
            pc := pc + 1;
          }
        case Remote(call) =>
          CallServer(call, reply);
          CallKeepsCopy(old(State()), call, reply);
        case Require(call) =>
          if ok {
            pc := pc + 1;
          } else {
            stage := Failing(FaultOf(call));
          }
        case Complete =>
          job.Complete();
          stage, writes := Done(Completes), writes + 1;
      }
    }
  }

  lemma {:induction false} CallKeepsCopy(w: Worker, call: Call, reply: Reply)
    requires w.stage.Ready?
    ensures AfterCall(w, call, reply).seen == w.seen && !AfterCall(w, call, reply).stage.Storing?
  {
  }
}
