/**
 What whole requests, rollbacks and steps of a worker leave in a row that nobody else touches meanwhile, column by column.
 */
module OnboardingWrites {
  import opened Wrappers
  import opened OnboardingRow
  import opened OnboardingJob

  predicate UnderWay(status: Status) {
    status.Pending? || status.Running?
  }

  /** The row after its expiry: cancelled if that was asked for, failed if not. */
  predicate ExpiredTo(row: Row, row': Row) {
    if row.cancelRequested
    then row' == row.(status := Cancelled, errorCode := Some(OperatorCancel))
    else row' == row.(status := Failed, errorCode := Some(Expiry))
  }

  /** What the request itself makes of the row. */
  predicate Effect(kind: Kind, row: Row, row': Row) {
    match kind
    case CancelJob => CancelTo(row, row')
    case RemoveServer => CancelTo(row, row')
    case RetryJob =>
      if row.status.Running? then row' == row
      else
        row' == Row(Pending, if row.lastSuccessful.Some? then row.lastSuccessful.value else NotStarted, 0, false, None,
                    row.lastSuccessful, row.retryCount + 1)
    case AskForRollback =>
      if row.status.Failed? || row.status.RollbackRequired? || row.status.Cancelled?
      then row' == row.(status := RollbackRequired, currentStep := RollingBack)
      else row' == row
    case Poll => row' == row
  }

  predicate CancelTo(row: Row, row': Row) {
    if UnderWay(row.status)
    then row' == row.(status := Cancelled, cancelRequested := true, errorCode := Some(OperatorCancel))
    else row' == row
  }

  /** The three steps that a request takes at most. */
  function Serving(s: System, id: nat, overdue: bool): (s': System)
    requires InRange(s)
    ensures InRange(s')
  {
    var a := ServeOnce(s, id, overdue);
    var b := ServeOnce(a, id, overdue);
    ServeOnce(b, id, overdue)
  }

  function ServeOnce(s: System, id: nat, overdue: bool): (s': System)
    requires InRange(s)
    ensures InRange(s')
  {
    Next(s, Serve(id, overdue))
  }

  /** The steps of a request on its own: a reading, an expiry or not, and the commit or not. */
  lemma {:induction false} RequestSteps(row: Row, kind: Kind, overdue: bool)
    ensures
      var expires := overdue && UnderWay(row.status) && (kind.CancelJob? || kind.RetryJob? || kind.Poll?);
      var a := RequestStep(row, Reading(kind), overdue);
      && a.row == row && a.request.Expiring? == expires && (a.request.Expiring? ==> a.request == Expiring(kind, row))
      && var b := if expires then RequestStep(row, a.request, overdue) else a;
         && (expires ==> ExpiredTo(row, b.row)) && (!expires ==> b.row == row)
         && (b.request.Committing? || b.request.Answered?)
         && (if b.request.Committing? then b.request == Committing(kind, b.row) else Effect(kind, b.row, b.row))
         && (b.request.Committing? ==> Effect(kind, b.row, RequestStep(b.row, b.request, overdue).row))
         && (kind.RetryJob? ==> (b.request.Committing? <==> expires || !row.status.Running?))
         && (kind.AskForRollback? ==>
               (b.request.Committing? <==> row.status.Failed? || row.status.RollbackRequired? || row.status.Cancelled?))
  {
  }

  /**
   A request that nobody disturbs: a job under way that is overdue expires first, unless the request is a rollback or a
   removal; then the request has its effect. An accepted retry starts one worker, an accepted rollback one task.
   */
  lemma {:induction false} RequestAlone(s: System, kind: Kind, overdue: bool)
    requires InRange(s)
    ensures InRange(Next(s, Arrive(kind)))
    ensures
      var id, s' := |s.requests|, Serving(Next(s, Arrive(kind)), |s.requests|, overdue);
      var expires := overdue && UnderWay(s.row.status) && (kind.CancelJob? || kind.RetryJob? || kind.Poll?);
      && s'.requests == s.requests + [Answered]
      && (if expires then exists late :: ExpiredTo(s.row, late) && Effect(kind, late, s'.row) else Effect(kind, s.row, s'.row))
      && s'.workers == s.workers + (if kind.RetryJob? && (expires || !s.row.status.Running?) then [NEW_WORKER] else [])
      && s'.undos == s.undos + (if kind.AskForRollback? && (s.row.status.Failed? || s.row.status.RollbackRequired?
                                                            || s.row.status.Cancelled?) then [Starting] else [])
  {
    RequestSteps(s.row, kind, overdue);
    hide ExpiredTo, Effect, Merge, Expired, Intended, Accepts, Recovers, Terminal;
  }

  /** A rollback task that nobody disturbs: failed after two good answers, else the rollback is still required. */
  lemma {:induction false} RollbackAlone(row: Row, reply: UndoReply)
    ensures
      var begun := UndoStep(row, Starting, reply);
      var done := UndoStep(begun.row, begun.task, reply);
      && done.task.Over?
      && done.row == match reply
                     case Removed(ok) => row.(status := if ok then Failed else RollbackRequired, currentStep := RollingBack)
                     case SshFails => row.(status := RollbackRequired)
                     case Crashes => row
  {
  }

  /** What a worker commits to a row that is as it loaded it. */
  lemma {:induction false} WorkerAlone(row: Row, w: Worker, reply: Reply)
    requires WellFormed(w) && w.seen == row
    ensures
      var m := WorkerStep(row, w, reply);
      match w.stage
      case Storing(_) =>
        var step := Program(w.pc).step;
        m.row == row.(currentStep := step, status := Running(step), progress := StepProgress(step),
                      lastSuccessful := if !Program(w.pc).checked || w.ok then Some(step) else row.lastSuccessful)
      case Failing(code) =>
        m.row == if AlreadySettled(row) then row
                 else row.(status := if w.installed then RollbackRequired else Failed, errorCode := Some(code))
      case Ready =>
        m.row == if w.pc == COMPLETE
                 then row.(status := Completed, currentStep := AllDone, progress := 100, lastSuccessful := Some(Validating))
                 else row
      case Done(_) => m.row == row
  {
    ProgramShape(w.pc);
    hide Evidence, Answering, AfterCall;
  }

  /** The first line goes on exactly when the job and its server are found. */
  lemma {:induction false} LoadLine(row: Row, w: Worker, reply: Reply)
    requires w.stage.Ready? && w.pc == 0
    ensures
      var m := WorkerStep(row, w, reply);
      && m.row == row && m.worker.seen == row
      && (m.worker.stage.Ready? && m.worker.pc == 1 <==> reply.Answer? && reply.ok)
      && (m.worker.stage.Ready? || m.worker.stage == Failing(Fault("internal_error")))
  {
  }
}
