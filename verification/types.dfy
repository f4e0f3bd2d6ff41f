/**
 * The records shared by the projection engine, the plan-progress coordinator
 * and the calendar journal (types.ts).
 */
module Types {
  import opened Wrappers

  /** One projected checkpoint of the compounding plan. */
  datatype CheckpointRow = CheckpointRow(
    id: int,
    amount: real,      // balance entering this step, rounded to cents
    lotSize: real,
    profit: real,      // WIN payoff, rounded to cents
    riskAmount: real,  // LOSS payoff (as a positive number), rounded to cents
    total: real        // balance after adding the profit, rounded to cents
  )

  /** The calculator inputs. Every field is a JavaScript number, so every field is a real here. */
  datatype CalculationSettings = CalculationSettings(
    startAmount: real,
    riskPercentage: real,
    rewardRatio: real,
    lotDivisor: real,
    steps: real
  )

  /** The outcome of a step is exactly one of WIN or LOSS. */
  datatype Outcome = Win | Loss

  /** The per-day aggregate of the calendar journal; `date` is the YYYY-MM-DD key it is stored under. */
  datatype DailyTradeData = DailyTradeData(date: string, profit: real, trades: int, wins: int)

  /** The calendar journal, keyed by date string. */
  type TrackerState = map<string, DailyTradeData>

  /** The recorded outcome of one resolved plan step. */
  datatype PlanStepResult = PlanStepResult(status: Outcome, date: string, amount: real)

  /** The plan cursor plus the sparse history of resolved steps, keyed by integer step id. */
  datatype PlanProgress = PlanProgress(currentStep: int, history: map<int, PlanStepResult>)

  /** A calendar day as JavaScript's Date reports it: `monthIndex` counts from 0 for January. */
  datatype CalendarDate = CalendarDate(year: int, monthIndex: int, day: int)

  /** The record both storage readers fall back to when nothing is stored. */
  const DefaultProgress: PlanProgress := PlanProgress(1, map[])

  /** Every day record carries the same date string it is stored under. */
  predicate Keyed(journal: TrackerState) {
    forall k :: k in journal ==> journal[k].date == k
  }

  /** No day counts more wins than trades. */
  predicate WinsBounded(journal: TrackerState) {
    forall k :: k in journal ==> journal[k].wins <= journal[k].trades
  }

  /** JavaScript truthiness of an optional string: present and not empty. */
  predicate Present(o: Option<string>) {
    o.Some? && o.value != ""
  }

  /** The wins a registration adds to its day: one for a WIN, none for a LOSS. */
  function WinIncrement(status: Outcome): int {
    if status == Win then 1 else 0
  }

  /** The signed amount a plan row pays out: its profit for a WIN, minus its risk amount for a LOSS. */
  function Payoff(row: CheckpointRow, status: Outcome): (r: real)
    ensures status == Win ==> r == row.profit
    ensures status == Loss ==> r == -row.riskAmount
    ensures row.profit >= 0.0 && row.riskAmount >= 0.0 ==> (status == Win ==> r >= 0.0) && (status == Loss ==> r <= 0.0)
  {
    if status == Win then row.profit else -row.riskAmount
  }

  /** The zero entry that an absent day counts as. */
  function ZeroDay(date: string): DailyTradeData {
    DailyTradeData(date, 0.0, 0, 0)
  }
}
