/**
 * The plan table in interactive mode (components/Spreadsheet.tsx): each row is
 * completed, current or future, and its action cell shows the recorded outcome,
 * the WIN / LOSS buttons, or a lock.
 */
module Spreadsheet {
  import opened Wrappers
  import opened Types
  import opened DateKeys
  import opened Coordinator

  /** Where a row stands relative to the plan cursor. */
  datatype RowPhase = Completed | Current | Future

  /** Classify a row by comparing its id with the current step. */
  function Phase(id: int, currentStep: int): (ph: RowPhase)
    ensures ph == Completed <==> id < currentStep
    ensures ph == Current <==> id == currentStep
    ensures ph == Future <==> id > currentStep
  {
    if id < currentStep then Completed else if id == currentStep then Current else Future
  }

  /** The call a button makes: step id, outcome, signed amount and (optional) date. */
  datatype Registration = Registration(stepId: int, status: Outcome, amount: real, date: Option<string>)

  /** What the action column of a row shows. */
  datatype ActionCell = Recorded(status: Outcome) | Buttons(win: Registration, loss: Registration) | Locked

  /** The action cell of a row: a recorded outcome for a completed row with history, buttons on the current row, else a lock. */
  function Cell(row: CheckpointRow, progress: PlanProgress): (c: ActionCell)
    ensures c.Recorded? <==> Phase(row.id, progress.currentStep) == Completed && row.id in progress.history
    ensures c.Recorded? ==> c.status == progress.history[row.id].status
    ensures c.Buttons? <==> Phase(row.id, progress.currentStep) == Current
    ensures c.Buttons? ==> c.win == Registration(row.id, Win, Payoff(row, Win), None)
    ensures c.Buttons? ==> c.loss == Registration(row.id, Loss, Payoff(row, Loss), None)
    ensures c.Buttons? ==> c.win.amount == row.profit && c.loss.amount == -row.riskAmount
  {
    var phase := Phase(row.id, progress.currentStep);
    if phase == Completed && row.id in progress.history then Recorded(progress.history[row.id].status)
    else if phase == Current then
      Buttons(Registration(row.id, Win, Payoff(row, Win), None), Registration(row.id, Loss, Payoff(row, Loss), None))
    else Locked
  }

  /** Pressing a button: App's registration with no date, so the entry is booked on today. */
  function Press(app: App, reg: Registration, today: CalendarDate): (r: App)
    ensures r.progress.currentStep == reg.stepId + 1
    ensures reg.stepId in r.progress.history
    ensures reg.date.None? ==> r.progress.history[reg.stepId].date == TodayKey(today)
  {
    RegisterResult(app, reg.stepId, reg.status, reg.amount, reg.date, today)
  }

  /** With consistent progress, a plan row (ids start at 1) shows a recorded outcome exactly when it is completed. */
  lemma RecordedIffCompleted(row: CheckpointRow, progress: PlanProgress)
    requires Consistent(progress) && row.id >= 1
    ensures Cell(row, progress).Recorded? <==> Phase(row.id, progress.currentStep) == Completed
  {
  }

  /**
   * Pressing a button of the current row records that row with the pressed
   * outcome, moves the buttons to the next row and keeps progress consistent.
   */
  lemma PressAdvancesTable(app: App, row: CheckpointRow, next: CheckpointRow, win: bool, today: CalendarDate)
    requires Consistent(app.progress)
    requires Cell(row, app.progress).Buttons?
    requires next.id == row.id + 1
    ensures var c := Cell(row, app.progress);
      var r := Press(app, if win then c.win else c.loss, today);
      && Consistent(r.progress)
      && Cell(row, r.progress) == Recorded(if win then Win else Loss)
      && Cell(next, r.progress).Buttons?
      && ReadJournal(r.store) == AccumulateDay(ReadJournal(app.store), ResolveDate(None, today),
                                               if win then Win else Loss, Payoff(row, if win then Win else Loss))
  {
    var status := if win then Win else Loss;
    var reg := Registration(row.id, status, Payoff(row, status), None);
    assert row.id == app.progress.currentStep;
    assert (if win then Cell(row, app.progress).win else Cell(row, app.progress).loss) == reg;
    var r := RegisterResult(app, row.id, status, Payoff(row, status), None, today);
    assert Press(app, reg, today) == r;
    RegisterCurrentStepKeepsConsistent(app, status, Payoff(row, status), None, today);
    assert r.progress.history[row.id].status == status;
  }
}
