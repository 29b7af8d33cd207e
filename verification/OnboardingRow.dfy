/**
 The row of `server_onboardings` and everything that writes it (app/services/onboarding_service.py,
 app/api/v1/onboarding.py, `cancel_active_onboardings` in app/repositories/server_repository.py).
 A session loads the row, assigns columns to its own copy and commits; a commit writes only the columns whose value
 differs from the loaded one, so what other sessions committed to the remaining columns survives.
 */
module OnboardingRow {
  import opened Wrappers

  datatype Step =
    | NotStarted | Connecting | Authenticating | Discovering | InstallingExporter | ConfiguringFirewall
    | VerifyingExporter | RegisteringInventory | ConfiguringMonitoring | Validating | AllDone | RollingBack

  datatype Status = Pending | Running(step: Step) | Completed | Failed | Cancelled | RollbackRequired

  /** `last_error_code`: the two codes that the program tests for, and all others. */
  datatype Code = OperatorCancel | Expiry | Fault(name: string)

  datatype Row = Row(
    status: Status,
    currentStep: Step,
    progress: nat,
    cancelRequested: bool,
    errorCode: Option<Code>,
    lastSuccessful: Option<Step>,
    retryCount: nat)

  const CREATED := Row(Pending, NotStarted, 0, false, None, None, 0)

  /** `TERMINAL_STATUSES`. */
  predicate Terminal(status: Status) {
    status.Completed? || status.Failed? || status.Cancelled? || status.RollbackRequired?
  }

  /** `STEP_PROGRESS`, continued with the 100 that completion writes. */
  function StepProgress(step: Step): nat {
    match step
    case Connecting => 5
    case Authenticating => 12
    case Discovering => 25
    case InstallingExporter => 45
    case ConfiguringFirewall => 60
    case VerifyingExporter => 70
    case RegisteringInventory => 82
    case ConfiguringMonitoring => 90
    case Validating => 97
    case AllDone => 100
    case _ => 0
  }

  // ----- What each writer assigns to its own copy -----

  function Entered(seen: Row, step: Step, success: bool): Row {
    seen.(currentStep := step, status := Running(step), progress := StepProgress(step),
          lastSuccessful := if success then Some(step) else seen.lastSuccessful)
  }

  function FailedWith(seen: Row, code: Code, rollback: bool): Row {
    seen.(status := if rollback then RollbackRequired else Failed, errorCode := Some(code))
  }

  function Finished(seen: Row): Row {
    seen.(status := Completed, currentStep := AllDone, progress := 100, lastSuccessful := Some(Validating))
  }

  function CancelledBy(seen: Row): Row {
    seen.(status := Cancelled, cancelRequested := true, errorCode := Some(OperatorCancel))
  }

  function Expired(seen: Row): Row {
    if seen.cancelRequested then seen.(status := Cancelled, errorCode := Some(OperatorCancel))
    else seen.(status := Failed, errorCode := Some(Expiry))
  }

  function Retried(seen: Row): Row {
    seen.(status := Pending, currentStep := if seen.lastSuccessful.Some? then seen.lastSuccessful.value else NotStarted,
          progress := 0, cancelRequested := false, retryCount := seen.retryCount + 1, errorCode := None)
  }

  function RollbackAsked(seen: Row): Row {
    seen.(status := RollbackRequired, currentStep := RollingBack)
  }

  function RolledBack(seen: Row, ok: bool): Row {
    seen.(status := if ok then Failed else RollbackRequired, currentStep := RollingBack)
  }

  /** `rollback` when its connection fails. */
  function RollbackBroken(seen: Row): Row {
    seen.(status := RollbackRequired)
  }

  /** `_fail` keeps quiet when its copy was already terminalised by a cancel or an expiry. */
  predicate AlreadySettled(seen: Row) {
    Terminal(seen.status) && (seen.errorCode == Some(OperatorCancel) || seen.errorCode == Some(Expiry))
  }

  // ----- Commit -----

  /** The row after a session that loaded `seen` commits `mine`. */
  function Merge(stored: Row, seen: Row, mine: Row): Row {
    Row(Pick(stored.status, seen.status, mine.status),
        Pick(stored.currentStep, seen.currentStep, mine.currentStep),
        Pick(stored.progress, seen.progress, mine.progress),
        Pick(stored.cancelRequested, seen.cancelRequested, mine.cancelRequested),
        Pick(stored.errorCode, seen.errorCode, mine.errorCode),
        Pick(stored.lastSuccessful, seen.lastSuccessful, mine.lastSuccessful),
        Pick(stored.retryCount, seen.retryCount, mine.retryCount))
  }

  /** The table as all sessions share it. */
  class Table {
    var row: Row

    constructor ()
      ensures row == CREATED
    {
      row := CREATED;
    }
  }

  /** The mapped object of one session: its columns and the values they were loaded with. */
  class ServerOnboarding {
    const table: Table
    var status: Status
    var currentStep: Step
    var progressPercent: nat
    var cancelRequested: bool
    var lastErrorCode: Option<Code>
    var lastSuccessfulStep: Option<Step>
    var retryCount: nat
    var loaded: Row

    ghost function Mine(): Row
      reads this
    {
      Row(status, currentStep, progressPercent, cancelRequested, lastErrorCode, lastSuccessfulStep, retryCount)
    }

    /** `session.get`. */
    constructor (table: Table)
      ensures this.table == table && loaded == table.row && Mine() == table.row
    {
      this.table := table;
      loaded := table.row;
      status, currentStep, progressPercent := table.row.status, table.row.currentStep, table.row.progress;
      cancelRequested, lastErrorCode := table.row.cancelRequested, table.row.errorCode;
      lastSuccessfulStep, retryCount := table.row.lastSuccessful, table.row.retryCount;
    }

    /** `session.refresh`. */
    method Refresh()
      modifies this
      ensures loaded == table.row && Mine() == table.row
    {
      loaded := table.row;
      status, currentStep, progressPercent := loaded.status, loaded.currentStep, loaded.progress;
      cancelRequested, lastErrorCode := loaded.cancelRequested, loaded.errorCode;
      lastSuccessfulStep, retryCount := loaded.lastSuccessful, loaded.retryCount;
    }

    /** `session.commit` with `expire_on_commit=False`: the copy keeps its values, also where the table has newer ones. */
    method Commit()
      modifies this`loaded, table
      ensures table.row == Merge(old(table.row), old(loaded), Mine())
      ensures loaded == Mine()
    {
      var mine := Row(status, currentStep, progressPercent, cancelRequested, lastErrorCode, lastSuccessfulStep, retryCount);
      table.row := Merge(table.row, loaded, mine);
      loaded := mine;
    }

    /** `_transition` up to its commit: refresh, refuse terminal and cancelled jobs, assign the step's columns. */
    method BeginTransition(step: Step, success: bool) returns (raised: Option<Code>)
      modifies this
      ensures loaded == table.row
      ensures
        raised == if Terminal(table.row.status) then
                    Some(if table.row.errorCode.Some? then table.row.errorCode.value else Expiry)
                  else if table.row.cancelRequested then Some(OperatorCancel) else None
      ensures Mine() == if raised.None? then Entered(table.row, step, success) else table.row
    {
      Refresh();
      if Terminal(status) {
        return Some(if lastErrorCode.Some? then lastErrorCode.value else Expiry);
      }
      if cancelRequested {
        return Some(OperatorCancel);
      }
      currentStep := step;
      status := Running(step);
      progressPercent := StepProgress(step);
      if success {
        lastSuccessfulStep := Some(step);
      }
      raised := None;
    }

    /** `_check_cancel`: it looks at the flag only. */
    method CheckCancel() returns (raised: Option<Code>)
      modifies this
      ensures loaded == table.row && Mine() == table.row
      ensures raised == if table.row.cancelRequested then Some(OperatorCancel) else None
    {
      Refresh();
      raised := if cancelRequested then Some(OperatorCancel) else None;
    }

    /** `_fail`: no refresh, so it judges by its own copy. */
    method Fail(code: Code, rollback: bool) returns (written: bool)
      requires loaded == Mine()
      modifies this, table
      ensures written == !AlreadySettled(old(Mine()))
      ensures
        if written then
          && Mine() == FailedWith(old(Mine()), code, rollback)
          && table.row == Merge(old(table.row), old(Mine()), Mine())
        else
          Mine() == old(Mine()) && table.row == old(table.row)
      ensures loaded == Mine()
    {
      if Terminal(status) && (lastErrorCode == Some(OperatorCancel) || lastErrorCode == Some(Expiry)) {
        return false;
      }
      status := if rollback then RollbackRequired else Failed;
      lastErrorCode := Some(code);
      Commit();
      written := true;
    }

    /** The last assignments of `run`. */
    method Complete()
      requires loaded == Mine()
      modifies this, table
      ensures Mine() == Finished(old(Mine())) == loaded
      ensures table.row == Merge(old(table.row), old(Mine()), Finished(old(Mine())))
    {
      status, currentStep, progressPercent := Completed, AllDone, 100;
      lastSuccessfulStep := Some(Validating);
      Commit();
    }

    /** `recover_stale`; `overdue` says that the row has not been updated for longer than the timeout. */
    method RecoverStale(overdue: bool) returns (recovered: bool)
      requires loaded == Mine()
      modifies this, table
      ensures recovered == (overdue && !Terminal(old(Mine()).status))
      ensures
        if recovered then
          Mine() == Expired(old(Mine())) && table.row == Merge(old(table.row), old(Mine()), Mine())
        else
          Mine() == old(Mine()) && table.row == old(table.row)
      ensures loaded == Mine()
    {
      if Terminal(status) || !overdue {
        return false;
      }
      var code := if cancelRequested then OperatorCancel else Expiry;
      status := if code == OperatorCancel then Cancelled else Failed;
      lastErrorCode := Some(code);
      Commit();
      recovered := true;
    }

    /** `cancel_onboarding` after recovery; also what `cancel_active_onboardings` does to one active job. */
    method Cancel() returns (cancelled: bool)
      requires loaded == Mine()
      modifies this, table
      ensures cancelled == !Terminal(old(Mine()).status)
      ensures
        if cancelled then
          Mine() == CancelledBy(old(Mine())) && table.row == Merge(old(table.row), old(Mine()), Mine())
        else
          Mine() == old(Mine()) && table.row == old(table.row)
    {
      if Terminal(status) {
        return false;
      }
      cancelRequested, status, lastErrorCode := true, Cancelled, Some(OperatorCancel);
      Commit();
      cancelled := true;
    }

    /** `retry_onboarding` after recovery; refused (HTTP 409) while the job is under way. */
    method Retry() returns (accepted: bool)
      requires loaded == Mine()
      modifies this, table
      ensures accepted == (Terminal(old(Mine()).status) || old(Mine()).status.Pending?)
      ensures
        if accepted then
          Mine() == Retried(old(Mine())) && table.row == Merge(old(table.row), old(Mine()), Mine())
        else
          Mine() == old(Mine()) && table.row == old(table.row)
    {
      if !Terminal(status) && !status.Pending? {
        return false;
      }
      status := Pending;
      currentStep := if lastSuccessfulStep.Some? then lastSuccessfulStep.value else NotStarted;
      progressPercent, cancelRequested, retryCount, lastErrorCode := 0, false, retryCount + 1, None;
      Commit();
      accepted := true;
    }

    /** `rollback_onboarding`. */
    method AskRollback() returns (accepted: bool)
      requires loaded == Mine()
      modifies this, table
      ensures
        var status := old(Mine()).status;
        accepted == (status.Failed? || status.RollbackRequired? || status.Cancelled?)
      ensures
        if accepted then
          Mine() == RollbackAsked(old(Mine())) && table.row == Merge(old(table.row), old(Mine()), Mine())
        else
          Mine() == old(Mine()) && table.row == old(table.row)
    {
      if !(status.Failed? || status.RollbackRequired? || status.Cancelled?) {
        return false;
      }
      status, currentStep := RollbackRequired, RollingBack;
      Commit();
      accepted := true;
    }

    /** The writes of `rollback` once its two scripts have answered. */
    method FinishRollback(ok: bool)
      requires loaded == Mine()
      modifies this, table
      ensures Mine() == RolledBack(old(Mine()), ok)
      ensures table.row == Merge(old(table.row), old(Mine()), Mine())
    {
      status := if ok then Failed else RollbackRequired;
      currentStep := RollingBack;
      Commit();
    }

    method BreakRollback()
      requires loaded == Mine()
      modifies this, table
      ensures Mine() == RollbackBroken(old(Mine()))
      ensures table.row == Merge(old(table.row), old(Mine()), Mine())
    {
      status := RollbackRequired;
      Commit();
    }
  }

  /** A commit writes each column that its session changed, and leaves every other as the table has it by then. */
  lemma {:induction false} CommitsAreColumnwise(stored: Row, seen: Row, mine: Row)
    ensures
      var row := Merge(stored, seen, mine);
      && row.status == (if mine.status == seen.status then stored.status else mine.status)
      && row.currentStep == (if mine.currentStep == seen.currentStep then stored.currentStep else mine.currentStep)
      && row.progress == (if mine.progress == seen.progress then stored.progress else mine.progress)
      && row.cancelRequested == (if mine.cancelRequested == seen.cancelRequested then stored.cancelRequested
                                 else mine.cancelRequested)
      && row.errorCode == (if mine.errorCode == seen.errorCode then stored.errorCode else mine.errorCode)
      && row.lastSuccessful == (if mine.lastSuccessful == seen.lastSuccessful then stored.lastSuccessful
                                else mine.lastSuccessful)
      && row.retryCount == (if mine.retryCount == seen.retryCount then stored.retryCount else mine.retryCount)
  {
  }
}
