# Compounding plan calculator and trade journal — Dafny model

The application projects a compounding trading plan and journals its outcomes.
From five settings (start amount, risk %, reward ratio, lot divisor, number of
steps) it builds a table of checkpoint rows. Each row holds the balance, the lot
size, the amount at risk, the profit and the balance after a win. In the
interactive mode the trader records a WIN or LOSS on the current row. That
advances the plan, books the payoff into a per-day journal, and feeds a
calendar (monthly and weekly totals) and a statistics page (totals, profit
factor, win rate, average/best/worst day, equity curve).

This project models that deterministic core as pure functions over immutable
data and proves properties about it:

- `money.dfy`: `Round2`, the value `parseFloat(x.toFixed(2))` on exact reals (ties
  away from zero, as `toFixed` rounds the magnitude).
- `calculation.dfy`: the projection engine `generateData`. It has an unrounded
  running balance, cents snapshots of every emitted field, a closed form of the
  balance, and monotonicity.
- `datekeys.dfy`: the `YYYY-MM-DD` date keys built with `padStart(2, '0')`, with
  their round trip, injectivity and month prefix.
- `coordinator.dfy`: `handleRegisterResult` and `performFullReset`. Storage is two
  optional records, and an absent one reads as its default
  (services/storageService.ts:20 and :48). Also here: step sequencing under
  "always register the current step".
- `journaltotals.dfy`: what registrations do to the journal's totals.
- `spreadsheet.dfy`: row classification (completed / current / future), the
  recorded-outcome and WIN/LOSS cells, and their payoffs.
- `tracker.dfy`: the calendar's interactive action with its optimistic local
  update, the reload and re-selection of today after every progress change, the
  day editor's save, clear-all, and the monthly profit.
- `calendar.dfy`: the month grid's slot and week arithmetic and the weekly totals
  loop.
- `folds.dfy`, `keyorder.dfy`, `stats.dfy`: sums over the journal that do not
  depend on key order, lexicographic key order with `Object.keys(...).sort()`, and
  the statistics page.
- `controlpanel.dfy`: the settings update rule and the growth-per-trade figure.

Where the code's behaviour is easy to misread, the model follows the code:

- A row's `profit` is computed from the **unrounded** risk amount, not from the
  rounded `riskAmount` field (services/calculationService.ts:18-19). The running
  balance also carries the unrounded profit (line 30).
- Registering a result never checks that `stepId` is the current step
  (App.tsx:85). `Coordinator.SkippedStepBreaksConsistency` shows what happens when
  a step is skipped. The sequencing lemmas assume the current step is registered.
- The day editor overwrites the day and never checks `wins <= trades`
  (components/Tracker.tsx:77-95). `Tracker.SaveDoesNotBoundWins` exhibits a save
  that leaves `wins > trades`.
- The interactive optimistic update keeps the old entry's `date` field, while the
  application writes the key as the date. `Tracker.OptimisticMatchesStored` proves
  that the two agree whenever every journal day carries its own key as its date.

## Model

| member | source | states |
|---|---|---|
| Money.Round2 | services/calculationService.ts:23-27 | the snapshot is a whole number of cents within half a cent of the value, and never changes its sign |
| Money.Round2Idempotent | services/calculationService.ts:12 | rounding an already rounded value to cents gives it back unchanged |
| Money.Round2Monotone | services/calculationService.ts:12 | rounding to cents preserves order |
| Calculation.StepCount | services/calculationService.ts:8 | the loop runs once for each whole i with 1 <= i <= steps, and not at all when steps < 1 |
| Calculation.LotSize | services/calculationService.ts:10-12 | the lot size is at least 0.01; it is 0.01 or the balance over the divisor in cents, and never below the latter |
| Calculation.MakeRow | services/calculationService.ts:10-28 | a row carries its id, the lot size max(0.01, balance/divisor in cents), and cents snapshots of the balance, of balance*risk/100, of that times the reward ratio (unrounded risk), and of the balance plus that profit |
| Calculation.Balance | services/calculationService.ts:6-30 | the balance carried into step k: the start amount for step 1, and the start amount at every step when risk or reward is 0 |
| Calculation.Plan | services/calculationService.ts:4-34 | exactly StepCount rows with ids 1, 2, ... in order; row k is built from the unrounded balance entering step k; each row's amount equals the previous row's total |
| Calculation.GenerateData | services/calculationService.ts:4-34 | the loop that carries the unrounded balance forward produces exactly the rows of the plan |
| Calculation.BalanceClosedForm | services/calculationService.ts:18-30 | the unrounded balance entering step k is start * (1 + risk/100 * reward)^(k-1) |
| Calculation.BalanceNonDecreasing | services/calculationService.ts:18-30 | with non-negative start, risk and reward the unrounded balance never falls from one step to the next |
| Calculation.PlanAmountsNonDecreasing | services/calculationService.ts:23-30 | under the same conditions each row's amount is at least the previous row's |
| Calculation.DefaultFirstLot | services/calculationService.ts:9-12 | with start 20 and divisor 1000 (the default settings of App.tsx) the first row's lot size is 0.02 for every risk, reward and step count >= 1 |
| Calculation.ThreeStepScenario | services/calculationService.ts:4-34 | the default settings with three steps give exactly three rows whose (amount, lot size, profit, risk amount, total) are (20, 0.02, 4, 4, 24), (24, 0.02, 4.8, 4.8, 28.8) and (28.8, 0.03, 5.76, 5.76, 34.56) |
| DateKeys.NatToString | App.tsx:80 | `String(n)` writes at least one decimal digit, with no leading zero, one digit exactly below 10 and two exactly for 10..99 |
| DateKeys.Pad2 | App.tsx:80 | padding to two characters keeps the string as a suffix and fills the front with '0' only |
| DateKeys.NatToStringRoundTrip | App.tsx:80 | the decimal digits of a natural number read back as that number |
| DateKeys.DateKey | components/Tracker.tsx:55 | for a non-negative year and month and day below 100 the key has the canonical YYYY-MM-DD shape and reads back as its year, month and day |
| DateKeys.TodayKey | App.tsx:76-81 | today's key starts with its month's prefix and, for a calendar date, reads back as the year, the 1-based month and the day |
| DateKeys.DateKeyInjective | components/Tracker.tsx:55 | distinct dates give distinct keys |
| DateKeys.DateKeyHasMonthPrefix | components/Tracker.tsx:121-123 | every key of a day of a month starts with that month's "YYYY-MM" prefix |
| Coordinator.ReadProgress | services/storageService.ts:45-53 | reading the progress gives the stored record, or {currentStep: 1, history: {}} when none is stored |
| Coordinator.ReadJournal | services/storageService.ts:17-25 | reading the journal gives the stored record, or the empty journal when none is stored |
| Types.Payoff | components/Spreadsheet.tsx:84-90 | a WIN pays the row's profit and a LOSS minus its risk amount, so with non-negative row figures a WIN never loses and a LOSS never gains |
| Coordinator.ResolveDate | App.tsx:76-81 | a registration is booked on the given date when it is a non-empty string, and otherwise on today's zero-padded key |
| Coordinator.AccumulateDay | App.tsx:98-110 | the booked day gets profit + amount, trades + 1, wins + 1 on WIN (an absent day counts as zero) and its key as date; no other day changes and no day disappears |
| Coordinator.RegisterResult | App.tsx:74-113 | current step becomes stepId + 1; history gains exactly the entry {status, date, amount} for stepId and every other entry is unchanged; both records are written and read back as the new progress and the accumulated journal |
| Coordinator.PerformFullReset | App.tsx:115-132 | progress becomes {currentStep: 1, history: {}}, and the stored records read back as that progress and an empty journal |
| Coordinator.RegisterCurrentStepKeepsConsistent | App.tsx:84-94 | registering the current step keeps history equal to exactly the steps before the current one, with one more entry |
| Coordinator.SkippedStepBreaksConsistency | App.tsx:85 | registering a step other than the current one (step 3 from a fresh plan) leaves history with a gap |
| Coordinator.RegisterKeepsKeyed | App.tsx:102-109 | if every journal day carries its own key as date, it still does after a registration |
| Coordinator.RegisterKeepsWinsBounded | App.tsx:105-106 | if wins <= trades held on every day, it still holds after a registration |
| Coordinator.ReplayAdvances | App.tsx:84-93 | N registrations of the current step advance the current step by N and keep history consistent |
| Coordinator.ReplayFromReset | App.tsx:84-124 | after a reset, N registrations of the current step give current step N + 1 and history keys exactly 1..N |
| JournalTotals.AccumulateTotals | App.tsx:100-109 | booking a registration on a day raises the journal's total profit by the amount, its trades by 1 and its wins by 1 exactly on WIN |
| JournalTotals.RegisterTotals | App.tsx:102-110 | a registration raises total profit by the amount, total trades by 1 and total wins by 1 exactly on WIN |
| JournalTotals.ReplayTotals | App.tsx:98-110 | a sequence of registrations raises the totals by the sum of amounts, the number of registrations and the number of WINs |
| JournalTotals.ReplayFromResetTotals | App.tsx:98-123 | after a reset the journal totals are exactly those sums |
| Spreadsheet.Phase | components/Spreadsheet.tsx:43-45 | a row is completed iff id < currentStep, current iff id == currentStep, future iff id > currentStep, and so exactly one of them |
| Spreadsheet.Cell | components/Spreadsheet.tsx:76-100 | a recorded outcome shows iff the row is completed and history has its id; buttons show iff it is current; WIN registers +profit and LOSS registers -riskAmount, without a date |
| Spreadsheet.Press | components/Spreadsheet.tsx:84-90 | a button press records the row's step and, carrying no date, books it on today's key |
| Spreadsheet.RecordedIffCompleted | components/Spreadsheet.tsx:43-46 | in a consistent plan a row shows a recorded outcome exactly when it is completed |
| Spreadsheet.PressAdvancesTable | components/Spreadsheet.tsx:81-95 | pressing WIN or LOSS on the current row records that outcome on it, moves the buttons to the next row and books the payoff on today |
| Tracker.CurrentStepId | components/Tracker.tsx:126 | the current step id, with 1 standing in for 0 |
| Tracker.FindRow | components/Tracker.tsx:127 | the search finds a row with the given id iff one exists, and the row it finds is the first one with that id |
| Tracker.FindRowInPlan | components/Tracker.tsx:127 | in a projected plan, step k is found iff 1 <= k <= number of rows, and it is row k |
| Tracker.OptimisticUpdate | components/Tracker.tsx:134-141 | the selected day's entry gains profit + amount, trades + 1, wins + 1 on WIN (absent: a zero entry dated with the key); no other day changes |
| Tracker.InteractiveAction | components/Tracker.tsx:129-144 | nothing happens without a current row or a selected date; otherwise the row's payoff (+profit / -riskAmount) is registered on the selected date and added to the local copy |
| Tracker.OptimisticMatchesStored | components/Tracker.tsx:133-142 | when the local copy is the stored journal and days are dated with their keys, the local copy after the action is the stored journal |
| Tracker.ProfitInput | components/Tracker.tsx:76 | an empty profit field is no number (NaN), any other field is what the parser reads |
| Tracker.CountInput | components/Tracker.tsx:77-78 | an empty trades or wins field counts 0 (NaN or 0), any other field what the parser reads, or 0 when it does not parse |
| Tracker.SaveJournal | components/Tracker.tsx:73-96 | save does nothing without a selected date or with non-empty non-numeric profit; it deletes the day when profit and trades are both empty; otherwise it overwrites that day (an empty profit field stores 0, any other the converted number; empty or unparseable counts become 0); no other day changes |
| Tracker.HandleSave | components/Tracker.tsx:85-99 | the saved journal replaces both the local copy and the stored journal |
| Tracker.SaveIdempotent | components/Tracker.tsx:85-96 | saving the same form twice gives the same journal as saving it once |
| Tracker.SaveDoesNotBoundWins | components/Tracker.tsx:77-95 | a save whose non-empty trades and wins fields read 1 and 5 is accepted and leaves wins > trades |
| Tracker.ClearAll | components/Tracker.tsx:103-118 | unconfirmed, nothing changes; confirmed, the journal is emptied, and in interactive mode the plan is fully reset too |
| Tracker.ProgressReload | components/Tracker.tsx:33-41 | after a progress change the selected date is today's (non-empty) key and the screen shows the stored journal; the application state is untouched |
| Tracker.CalendarPress | components/Tracker.tsx:129-144 | a WIN/LOSS with a current row and a selected date registers the payoff, then the reload shows the stored journal and selects today; otherwise nothing changes |
| Tracker.ReloadKeepsOptimisticView | components/Tracker.tsx:33-41 | on a screen showing the stored journal with key-dated days, the reload after a press shows exactly the optimistically updated journal |
| Tracker.ClearAllView | components/Tracker.tsx:103-118 | a confirmed interactive clear fully resets, and the reload that follows shows an empty journal and selects today; a manual clear keeps the selection; unconfirmed, nothing changes |
| Tracker.MonthlyProfit | components/Tracker.tsx:121-123 | the month's profit is the journal's net profit when every day lies in the month, and 0 when none does |
| Tracker.MonthlyProfitPartition | components/Tracker.tsx:121-123 | the month's profit plus the profit of all other days is the journal's net profit |
| Tracker.InteractiveActionMonthlyProfit | components/Tracker.tsx:121-141 | an interactive WIN/LOSS on a day of the displayed month raises the monthly profit by exactly the payoff |
| Calendar.TotalSlots | components/Tracker.tsx:149 | the grid has the least multiple of 7 slots that holds the first-day offset plus the days of the month |
| Calendar.InMonthSlots | components/Tracker.tsx:169-170 | slot i shows a day of the month iff firstDay <= i < firstDay + daysInMonth, and those slots lie inside the grid |
| Calendar.DayTotal | components/Tracker.tsx:171-185 | a day counts as one active day exactly when the journal has its key, and then contributes that entry's profit; otherwise it contributes nothing |
| Calendar.SumWeeks | components/Tracker.tsx:168-272 | the slot loop that adds each slot into the running week and emits and resets it after every 7th slot yields, for a multiple of 7 slots, one row per week whose value is the sum of exactly that week's slots |
| Calendar.WeeklyTotals | components/Tracker.tsx:168-272 | the loop emits one total per 7 slots, and week w sums profit and active days over exactly slots 7w..7w+6 |
| Calendar.WeeksCoverMonth | components/Tracker.tsx:168-272 | the week totals together add up to the totals of days 1..daysInMonth of the month |
| Folds.MapSum | components/Stats.tsx:15-23 | the sum of a measure over the journal: 0 for an empty journal; the gross profit and the numbers of winning and losing days are never negative, and the sum of the losing days is never positive |
| Folds.MapSumRemove | components/Stats.tsx:15-19 | a sum over the journal is one day's value plus the sum over the others, whichever day is taken |
| Folds.MapSumPartition | components/Tracker.tsx:121-123 | the sum over the days with a prefix plus the sum over the rest is the sum over all days |
| Folds.MaxProfit | components/Stats.tsx:38 | the best day is some day's profit and no day's profit exceeds it |
| Folds.MinProfit | components/Stats.tsx:39 | the worst day is some day's profit and no day's profit is below it |
| KeyOrder.Less | components/Stats.tsx:43 | the default sort order: a proper prefix sorts first, a string never sorts before its own prefix, and the first character decides when it differs |
| KeyOrder.LessIsFirstDifference | components/Stats.tsx:43 | one key sorts before another exactly when it is a proper prefix of it, or when at the first position where they differ it has the smaller character |
| KeyOrder.Ascending | components/Stats.tsx:43 | the sorted keys contain each journal key exactly once, in strictly ascending lexicographic order |
| Stats.WinRate | components/Stats.tsx:59 | 0 with no trades, otherwise wins*100/trades, within 0..100 when 0 <= wins <= trades |
| Stats.ProfitFactor | components/Stats.tsx:24 | gross profit when gross loss is 0, otherwise gross profit / gross loss, never negative for non-negative inputs |
| Stats.Average | components/Stats.tsx:30-36 | 0 with no days, otherwise sum / days, with the sign of the sum |
| Stats.ComputeStats | components/Stats.tsx:14-66 | totals, net P/L and gross profit are the journal sums; gross loss is minus the sum of the losing days; profit factor, win rate and averages are ProfitFactor, WinRate and Average of those sums; best and worst day are 0 for an empty journal and the extreme day profits otherwise |
| Stats.NetIsGrossProfitMinusGrossLoss | components/Stats.tsx:19-23 | gross profit and gross loss are non-negative, and net P/L equals gross profit minus gross loss |
| Stats.ProfitFactorNonNegative | components/Stats.tsx:22-24 | the profit factor is never negative |
| Stats.WinRateBounds | components/Stats.tsx:16-59 | when every day has 0 <= wins <= trades, the win rate lies in 0..100 (0 with no trades) and total losses are non-negative |
| Stats.WinningDaysCount | components/Stats.tsx:27 | there are winning days exactly when some day's profit is positive |
| Stats.LosingDaysCount | components/Stats.tsx:28 | there are losing days exactly when some day's profit is negative |
| Stats.AverageWinDaySign | components/Stats.tsx:27-32 | the average winning day is positive when there are winning days, and 0 otherwise |
| Stats.AverageLossDaySign | components/Stats.tsx:28-36 | the average losing day is negative when there are losing days, and 0 otherwise |
| Stats.BestAndWorstDay | components/Stats.tsx:38-39 | both are 0 for an empty journal; otherwise both are some day's profit, every day lies between them, and best >= worst |
| Stats.Curve | components/Stats.tsx:44-48 | point i of the curve is dated with the i-th key and holds the start balance plus the profits of the first i + 1 days |
| Stats.EquityCurve | components/Stats.tsx:43-51 | the curve has one point per day plus the start point at the start balance, visits the days in ascending key order and ends at start balance + net P/L |
| ControlPanel.WithField | components/ControlPanel.tsx:33-35 | the spread update sets exactly the edited key and leaves every other setting unchanged |
| ControlPanel.HandleChange | components/ControlPanel.tsx:29-38 | no update for a non-numeric input; otherwise the edited key gets the number (the start amount gets its converted value) and no other setting changes |
| ControlPanel.HandleChangeIdempotent | components/ControlPanel.tsx:29-38 | applying the same input twice equals applying it once, and re-entering a key's current value changes nothing |
| ControlPanel.GrowthPerTrade | components/ControlPanel.tsx:110 | the figure is risk% * reward to within half a cent |
| ControlPanel.GrowthPerTradeIsProjectionGrowth | components/ControlPanel.tsx:110 | risk% * reward is exactly the percentage by which the projection's unrounded balance grows per step |

## Left out

- Storage (services/storageService.ts) is reduced to two optional records. JSON
  serialisation, `localStorage` and the catch-and-log error handling are not
  modelled. A record that is absent reads as its default.
- The AI service (services/geminiService.ts) is a network call and is not part of
  this model.
- Currency conversion (`convertInputToUSD` / `convertUSDToInput`) is not defined
  in the visible sources. The conversion of an entered amount is a
  function-valued parameter, and no round-trip law is assumed. `formatCurrency`
  (Intl.NumberFormat) is display only.
- `parseFloat` and `parseInt` are function-valued parameters returning an
  optional number. Their text grammar is not modelled.
- JavaScript `Date` is replaced by parameters: today's date, the number of days
  in a month and the weekday of its first day (components/Tracker.tsx:20-21). So
  are the month navigation and the month names. The screen's effect on the plan
  progress (components/Tracker.tsx:33-41) runs after every registration and
  reset; it is modelled as `Tracker.ProgressReload`, with today's date as a
  parameter.
- IEEE floating point is not modelled. Amounts are exact reals, and `toFixed(2)`
  is exact rounding to cents. NaN and Infinity do not arise: for example, a steps
  input of "1e999" makes the source's loop bound Infinity, which the model cannot
  express.
- Calculation.GenerateData, Calculation.Plan, Calculation.MakeRow and
  Calculation.LotSize require a non-zero lot divisor. With a zero divisor the
  source computes Infinity or NaN lot sizes, which exact reals cannot represent.
- ControlPanel.GrowthPerTrade models the displayed `toFixed(2)` text as the
  rounded real number it denotes, not as a string.
- DateKeys.DateKey and DateKeys.DateKeyInjective promise the round trip and
  injectivity only for non-negative years and for months and days below 100.
  Calendar dates always satisfy this. Negative "days" arise only for padding
  slots outside the month, whose keys the grid never looks up.
- Rendering is not modelled:
  - JSX, CSS classes and dark mode;
  - the SVG equity chart coordinates (components/Stats.tsx:69-142);
  - image and PDF export (App.tsx:135-164);
  - toast notifications and `confirm` dialogs (`ClearAll` takes the answer as a
    parameter);
  - the step badge shown on calendar days and the plan modal of the tracker.
- The day editor's form prefill in `handleDayClick` (components/Tracker.tsx:54-71)
  is out of the model. It sets the initial contents of the form that `handleSave`
  later parses. `Tracker.SaveJournal` takes any form as a parameter, so the
  prefilled form is one of its inputs and leaving the prefill out loses no save
  behaviour. The click also selects the date key, which is `DateKeys.DateKey` of
  the clicked day.
- React state hooks and the `resetKey` remount are replaced by explicit values.
  A screen is the application state plus the tracker's local journal copy.
